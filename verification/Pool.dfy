/**
 The commands that change the tab pool and the attachments across awaits
 (extension/src/handlers/window.ts, tabs.ts, attached.ts), behind the state lock of
 extension/src/dispatch.ts. They run on top of the preamble: a command gets here only once
 it passed `prepare`, while other commands, restores and every browser event interleave.
 */
module Pool {
  import opened Base
  import opened Tabs
  import opened Preamble
  import L = Lock
  import M = Memo

  /** The five state commands, and everything else as `Free`. */
  datatype Plan = Create | CloseTab(t: TabId) | CloseWindow | Attach(t: TabId) | Detach(t: TabId) | Free

  /** Where a state command is; it holds the lock from `Entered` until `Left`. */
  datatype HPhase =
    | Queued                                   // awaits the lock
    | CheckingWindow                           // createWindow awaits windows.get
    | Clearing                                 // createWindow awaits session.clear
    | Evicting(ident: nat)                     // awaits tabs.remove of the oldest tab
    | Creating(ident: nat)                     // awaits tabs.create
    | Created(ident: nat, t: TabId)            // the tab exists, its promise has not resumed yet
    | Opening                                  // awaits the new or the adopted window
    | Opened(w: nat, t: TabId, isPrivate: bool, adopted: bool)
    | Closing(ident: nat, t: TabId)            // closeTab awaits tabs.remove
    | Attaching(t: TabId)                      // attachTab awaits tabs.get
    | Leaving                                  // only writes and cosmetic calls are left
    | Left                                     // settled, lock released

  datatype Run = Run(plan: Plan, ticket: nat, phase: HPhase)

  datatype State = State(core: Core, lock: L.Chain, runs: map<nat, Run>)

  const START := State(Preamble.INIT, L.IDLE, map[])

  datatype Event =
    | Preparing(e: Preamble.Event)
    | Passing(i: nat, plan: Plan)
    | Entering(i: nat)
    | Answered(i: nat, ok: bool, mismatch: bool)    // an awaited browser call of handler i resumes
    | NewTab(i: nat, w: nat, t: TabId, isPrivate: bool, adopted: bool)   // Firefox makes the tab handler i asked for
    | WindowGone(w: nat) | TabGone(t: TabId) | AttachedGone(t: TabId) | TabChosen(w: nat, t: TabId)
    | SessionLost                                   // getSession clears a session whose window is gone

  function WithMem(s: State, m: Mem): State {
    s.(core := s.core.(mem := m))
  }

  function Move(s: State, i: nat, p: HPhase): State {
    if i in s.runs then s.(runs := s.runs[i := s.runs[i].(phase := p)]) else s
  }

  function Release(s: State, i: nat): State {
    if i in s.runs then Move(s, i, Left).(lock := s.lock.Release(s.runs[i].ticket)) else s
  }

  /** `run` after the preamble: a state command takes its place in the queue at once. */
  function Pass(s: State, i: nat, plan: Plan): State {
    var s' := s.(core := Preamble.Continue(s.core, i));
    if !CanContinue(s.core, i) || s'.core.cmds[i].stage != Passed || plan.Free? then s'
    else
      var lock := s.lock.Acquire();
      s'.(lock := lock, runs := s.runs[i := Run(plan, lock.tail, Queued)])
  }

  // ----- the handlers, stretch by stretch -----

  /** createWindow once the stale state is dropped: what is in memory then, and where it waits. */
  function AddOrOpen(m: Mem, mismatch: bool): (Mem, HPhase) {
    if m.state.None? then (m, Opening)
    else if mismatch then (m, Leaving)
    else if |m.Pool()| >= MAX_TABS then (m.WithTabs(m.Pool()[1..]), Evicting(m.state.value.ident))
    else (m, Creating(m.state.value.ident))
  }

  /** The first stretch of each handler. */
  function Begin(m: Mem, plan: Plan): (Mem, HPhase) {
    match plan
    case Create => if m.state.None? then (m, Opening) else (m, CheckingWindow)
    case CloseTab(t) =>
      if t in m.entries then (Forgotten(m, t), Leaving)
      else if m.state.None? || t !in m.Pool() then (m, Leaving)
      else (m.WithTabs(Without(m.Pool(), t)), Closing(m.state.value.ident, t))
    case CloseWindow => (if m.state.None? then m else m.Cleared(), Leaving)
    case Attach(t) => (m, if t in m.Pool() then Leaving else Attaching(t))
    case Detach(t) => (Forgotten(m, t), Leaving)
    case Free => (m, Leaving)
  }

  /** The stretch after an await; an answer the handler does not wait for changes nothing. */
  function Onward(m: Mem, p: HPhase, ok: bool, mismatch: bool): (Mem, HPhase) {
    match p
    case CheckingWindow => if ok then AddOrOpen(m, mismatch) else (m.Cleared(), Clearing)
    case Clearing => if ok then AddOrOpen(m, mismatch) else (m, Leaving)
    case Evicting(o) => (m, Creating(o))
    case Creating(o) => (m, if ok then p else Leaving)
    case Created(o, t) => ((if m.Holds(o) then m.WithTabs(m.Pool() + [t]) else m).(active := Some(t)), Leaving)
    case Opening => (m, if ok then p else Leaving)
    case Opened(w, t, isPrivate, adopted) => (m.Open(w, [t], isPrivate, adopted, Some(t)), Leaving)
    case Closing(o, t) => (if m.Holds(o) && m.active == Some(t) then m.(active := Last(m.Pool())) else m, Leaving)
    case Attaching(t) => (if ok then m.(entries := m.entries + {t}) else m, Leaving)
    case _ => (m, p)
  }

  /** The lock opened: a command whose deadline fired meanwhile goes no further. */
  function Enter(s: State, i: nat): State {
    if i !in s.runs || !s.runs[i].phase.Queued? || !s.lock.Open(s.runs[i].ticket) || i >= |s.core.cmds| then s
    else if s.core.cmds[i].expired then Release(s, i)
    else
      var (m, p) := Begin(s.core.mem, s.runs[i].plan);
      Move(WithMem(s, m), i, p)
  }

  function Resume(s: State, i: nat, ok: bool, mismatch: bool): State {
    if i !in s.runs || !Holding(s.runs[i]) then s
    else if s.runs[i].phase.Leaving? then Release(s, i)
    else
      var (m, p) := Onward(s.core.mem, s.runs[i].phase, ok, mismatch);
      Move(WithMem(s, m), i, p)
  }

  /** Firefox never gives out a tab id twice, so a new one is neither pooled nor attached. */
  function MakeTab(s: State, i: nat, w: nat, t: TabId, isPrivate: bool, adopted: bool): State {
    if i !in s.runs || t in s.core.mem.Pool() || t in s.core.mem.entries then s
    else if s.runs[i].phase.Creating? then Move(s, i, Created(s.runs[i].phase.ident, t))
    else if s.runs[i].phase.Opening? then Move(s, i, Opened(w, t, isPrivate, adopted))
    else s
  }

  function Step(s: State, e: Event): State {
    var m := s.core.mem;
    match e
    case Preparing(e) => if e.Continuing? then s else s.(core := Preamble.Step(s.core, e))
    case Passing(i, plan) => Pass(s, i, plan)
    case Entering(i) => Enter(s, i)
    case Answered(i, ok, mismatch) => Resume(s, i, ok, mismatch)
    case NewTab(i, w, t, isPrivate, adopted) => MakeTab(s, i, w, t, isPrivate, adopted)
    case WindowGone(w) => WithMem(s, WindowRemoved(m, w))
    case TabGone(t) => WithMem(s, TabRemoved(m, t))
    case AttachedGone(t) => WithMem(s, Forgotten(m, t))
    case TabChosen(w, t) => WithMem(s, TabActivated(m, w, t))
    case SessionLost => WithMem(s, m.Cleared())
  }

  function Steps(es: seq<Event>): State {
    if es == [] then START else Step(Steps(es[..|es| - 1]), es[|es| - 1])
  }

  // ----- the invariant -----

  predicate Holding(r: Run) {
    !r.phase.Queued? && !r.phase.Left?
  }

  ghost predicate Owned(runs: map<nat, Run>, t: nat) {
    exists i :: i in runs && runs[i].ticket == t
  }

  /** What the tickets say: the lock is open for a holder, and nobody shares a ticket. */
  ghost predicate LockInv(lock: L.Chain, runs: map<nat, Run>) {
    && lock.Wf()
    && (forall i :: i in runs ==>
          && 0 < runs[i].ticket <= lock.tail
          && (Holding(runs[i]) ==> lock.Inside(runs[i].ticket))
          && (runs[i].phase.Queued? ==> runs[i].ticket !in lock.resolved)
          && (runs[i].phase.Left? ==> runs[i].ticket in lock.resolved))
    && (forall t :: 0 < t <= lock.tail ==> Owned(runs, t))
    && (forall i, j :: i in runs && j in runs && i != j ==> runs[i].ticket != runs[j].ticket)
  }

  /** What a handler may still rely on when it resumes. */
  ghost predicate PhaseOk(p: HPhase, m: Mem) {
    match p
    case Evicting(o) => m.Holds(o) ==> |m.Pool()| < MAX_TABS
    case Creating(o) => m.Holds(o) ==> |m.Pool()| < MAX_TABS
    case Created(o, t) => (m.Holds(o) ==> |m.Pool()| < MAX_TABS) && t !in m.Pool() && t !in m.entries
    case Opened(_, t, _, _) => t !in m.entries
    case Attaching(t) => t !in m.Pool()
    case _ => true
  }

  /** The current attempt has dropped the pool tabs from the attachments. */
  predicate HasDropped(pre: M.Layer<Attempt>) {
    && pre.memo.promise.Some? && pre.memo.promise.value < |pre.runs|
    && var p := pre.runs[pre.memo.promise.value].phase;
    p.AtDrop? || p.AtDropAgain? || p.ADone?
  }

  ghost predicate RunsOk(s: State) {
    forall i :: i in s.runs ==>
      i < |s.core.cmds| && s.core.cmds[i].stage == Passed && PhaseOk(s.runs[i].phase, s.core.mem)
  }

  ghost predicate PoolInv(s: State) {
    && Preamble.Inv(s.core)
    && LockInv(s.lock, s.runs)
    && RunsOk(s)
    && Bounded(s.core.mem)
    && (HasDropped(s.core.pre) ==> Disjoint(s.core.mem))
  }

  // ----- every step keeps it -----

  lemma OneHolder(s: State, i: nat, j: nat)
    requires PoolInv(s) && i in s.runs && j in s.runs && Holding(s.runs[i]) && Holding(s.runs[j])
    ensures i == j
  {
    L.MutualExclusion(s.lock, s.runs[i].ticket, s.runs[j].ticket);
  }

  lemma SmallerMemoryKeeps(s: State, m: Mem)
    requires PoolInv(s) && Shrunk(m, s.core.mem)
    ensures PoolInv(WithMem(s, m))
  {
  }

  /** The holder moves on, leaving memory in a state it and the invariant can live with. */
  lemma HolderMoves(s: State, i: nat, m: Mem, p: HPhase)
    requires PoolInv(s) && i in s.runs && p != Queued && p != Left
    requires Holding(s.runs[i]) || (s.runs[i].phase.Queued? && s.lock.Open(s.runs[i].ticket))
    requires Bounded(m) && Disjoint(m) && PhaseOk(p, m)
    ensures PoolInv(Move(WithMem(s, m), i, p))
  {
    var s' := Move(WithMem(s, m), i, p);
    OwnersStay(s.lock, s.runs, i, p);
    forall j | j in s.runs && j != i ensures PhaseOk(s.runs[j].phase, m) {
      if Holding(s.runs[j]) {
        L.MutualExclusion(s.lock, s.runs[i].ticket, s.runs[j].ticket);
      }
    }
    assert RunsOk(s');
  }

  lemma OwnersStay(lock: L.Chain, runs: map<nat, Run>, i: nat, p: HPhase)
    requires LockInv(lock, runs) && i in runs
    ensures var runs' := runs[i := runs[i].(phase := p)]; forall t :: 0 < t <= lock.tail ==> Owned(runs', t)
  {
    var runs' := runs[i := runs[i].(phase := p)];
    forall t | 0 < t <= lock.tail ensures Owned(runs', t) {
      assert Owned(runs, t);
      var j :| j in runs && runs[j].ticket == t;
      assert j in runs' && runs'[j].ticket == t;
    }
  }

  lemma TicketReleased(lock: L.Chain, runs: map<nat, Run>, i: nat)
    requires LockInv(lock, runs) && i in runs && lock.Open(runs[i].ticket)
    ensures LockInv(lock.Release(runs[i].ticket), runs[i := runs[i].(phase := Left)])
  {
    OwnersStay(lock, runs, i, Left);
    var runs' := runs[i := runs[i].(phase := Left)];
    var lock' := lock.Release(runs[i].ticket);
    forall j | j in runs' && j != i
      ensures runs'[j] == runs[j] && (runs[j].ticket in lock'.resolved <==> runs[j].ticket in lock.resolved)
    {
    }
  }

  lemma ReleaseKeeps(s: State, i: nat)
    requires PoolInv(s) && i in s.runs
    requires Holding(s.runs[i]) || (s.runs[i].phase.Queued? && s.lock.Open(s.runs[i].ticket))
    ensures PoolInv(Release(s, i))
  {
    assert s.lock.Open(s.runs[i].ticket);
    TicketReleased(s.lock, s.runs, i);
    ReleasedRunsOk(s, i);
  }

  lemma ReleasedRunsOk(s: State, i: nat)
    requires RunsOk(s) && i in s.runs
    ensures RunsOk(Release(s, i)) && Release(s, i).core == s.core
  {
  }

  /** A command past the preamble finds the pool and the attachments apart. */
  lemma PassedMeansDropped(s: State, i: nat)
    requires Preamble.Inv(s.core) && i < |s.core.cmds| && s.core.cmds[i].stage == Passed
    ensures HasDropped(s.core.pre)
  {
    assert CmdOk(s.core.pre, s.core.cmds[i]);
  }

  lemma PassedMeansPrepared(s: State, i: nat)
    requires PoolInv(s) && i < |s.core.cmds| && s.core.cmds[i].stage == Passed
    ensures Prepared(s.core, s.core.cmds[i].joined) && Disjoint(s.core.mem)
  {
    PassedMeansDropped(s, i);
    assert CmdOk(s.core.pre, s.core.cmds[i]);
  }

  lemma HoldsAlone(s: State, i: nat)
    requires PoolInv(s)
    ensures i in s.runs && Holding(s.runs[i]) ==> forall j :: j in s.runs && j != i ==> !Holding(s.runs[j])
  {
    forall j | i in s.runs && Holding(s.runs[i]) && j in s.runs && j != i ensures !Holding(s.runs[j]) {
      if Holding(s.runs[j]) { OneHolder(s, i, j); }
    }
  }

  lemma QueueKeeps(lock: L.Chain, runs: map<nat, Run>, i: nat, plan: Plan)
    requires LockInv(lock, runs) && i !in runs
    ensures LockInv(lock.Acquire(), runs[i := Run(plan, lock.tail + 1, Queued)])
  {
    var runs' := runs[i := Run(plan, lock.tail + 1, Queued)];
    forall t | 0 < t <= lock.tail + 1 ensures Owned(runs', t) {
      if t <= lock.tail {
        assert Owned(runs, t);
        var j :| j in runs && runs[j].ticket == t;
        assert j in runs' && runs'[j].ticket == t;
      } else {
        assert i in runs' && runs'[i].ticket == t;
      }
    }
  }

  lemma ContinueFrame(c: Core, i: nat)
    requires CanContinue(c, i)
    ensures var c' := Preamble.Continue(c, i);
      c'.mem == c.mem && c'.pre == c.pre && |c'.cmds| == |c.cmds|
        && (forall j :: 0 <= j < |c.cmds| && j != i ==> c'.cmds[j] == c.cmds[j])
  {
  }

  /** The command that passes is not among the runs yet, and those of the others stay as they are. */
  lemma PassedRunsOk(s: State, i: nat, plan: Plan)
    requires RunsOk(s) && CanContinue(s.core, i)
    ensures RunsOk(Pass(s, i, plan)) && i !in s.runs
  {
    ContinueFrame(s.core, i);
    var s' := Pass(s, i, plan);
    forall j | j in s'.runs
      ensures j < |s'.core.cmds| && s'.core.cmds[j].stage == Passed && PhaseOk(s'.runs[j].phase, s'.core.mem)
    {
      if j != i {
        assert j in s.runs && s'.runs[j] == s.runs[j];
      }
    }
  }

  lemma PassedLockInv(s: State, i: nat, plan: Plan)
    requires LockInv(s.lock, s.runs) && CanContinue(s.core, i) && i !in s.runs
    ensures var s' := Pass(s, i, plan); LockInv(s'.lock, s'.runs)
  {
    QueueKeeps(s.lock, s.runs, i, plan);
  }

  lemma PassKeeps(s: State, i: nat, plan: Plan)
    requires PoolInv(s)
    ensures PoolInv(Pass(s, i, plan))
  {
    if CanContinue(s.core, i) {
      ContinueKeeps(s.core, i);
      ContinueFrame(s.core, i);
      PassedRunsOk(s, i, plan);
      PassedLockInv(s, i, plan);
    }
  }

  /** No handler takes the pool over its limit or lets it overlap the attachments. */
  lemma BeginIsSafe(m: Mem, plan: Plan)
    requires Bounded(m) && Disjoint(m)
    ensures var (m', p) := Begin(m, plan); Bounded(m') && Disjoint(m') && PhaseOk(p, m') && p != Queued && p != Left
  {
  }

  lemma OnwardIsSafe(m: Mem, p: HPhase, ok: bool, mismatch: bool)
    requires Bounded(m) && Disjoint(m) && PhaseOk(p, m) && p != Queued && p != Left
    ensures var (m', p') := Onward(m, p, ok, mismatch);
      Bounded(m') && Disjoint(m') && PhaseOk(p', m') && p' != Queued && p' != Left
  {
  }

  lemma EnterKeeps(s: State, i: nat)
    requires PoolInv(s)
    ensures PoolInv(Enter(s, i))
  {
    if i in s.runs && s.runs[i].phase.Queued? && s.lock.Open(s.runs[i].ticket) && i < |s.core.cmds| {
      PassedMeansDropped(s, i);
      if s.core.cmds[i].expired {
        ReleaseKeeps(s, i);
      } else {
        var (m, p) := Begin(s.core.mem, s.runs[i].plan);
        BeginIsSafe(s.core.mem, s.runs[i].plan);
        HolderMoves(s, i, m, p);
      }
    }
  }

  lemma ResumeKeeps(s: State, i: nat, ok: bool, mismatch: bool)
    requires PoolInv(s)
    ensures PoolInv(Resume(s, i, ok, mismatch))
  {
    if i in s.runs && Holding(s.runs[i]) {
      PassedMeansDropped(s, i);
      if s.runs[i].phase.Leaving? {
        ReleaseKeeps(s, i);
      } else {
        var (m, p) := Onward(s.core.mem, s.runs[i].phase, ok, mismatch);
        OnwardIsSafe(s.core.mem, s.runs[i].phase, ok, mismatch);
        HolderMoves(s, i, m, p);
      }
    }
  }

  lemma MakeTabKeeps(s: State, i: nat, w: nat, t: TabId, isPrivate: bool, adopted: bool)
    requires PoolInv(s)
    ensures PoolInv(MakeTab(s, i, w, t, isPrivate, adopted))
  {
    var s' := MakeTab(s, i, w, t, isPrivate, adopted);
    if s' != s {
      PassedMeansDropped(s, i);
      HolderMoves(s, i, s.core.mem, s'.runs[i].phase);
      assert s' == Move(WithMem(s, s.core.mem), i, s'.runs[i].phase);
    }
  }

  /** The preamble never writes memory beside a handler; before, it keeps the pool bounded and,
      at the drop, makes it disjoint from the attachments. */
  lemma PreambleKeeps(s: State, e: Preamble.Event)
    requires PoolInv(s) && !e.Continuing?
    ensures PoolInv(s.(core := Preamble.Step(s.core, e)))
  {
    var c := s.core;
    var c' := Preamble.Step(c, e);
    Preamble.StepKeeps(c, e);
    forall i | i in s.runs
      ensures c'.mem == c.mem && i < |c'.cmds| && c'.cmds[i].stage == Passed
    {
      AfterPassing(c, e, i);
    }
    PreambleMemory(c, e);
  }

  lemma PreambleMemory(c: Core, e: Preamble.Event)
    requires Preamble.Inv(c) && Bounded(c.mem) && (HasDropped(c.pre) ==> Disjoint(c.mem))
    ensures var c' := Preamble.Step(c, e); Bounded(c'.mem) && (HasDropped(c'.pre) ==> Disjoint(c'.mem))
  {
    match e
    case SessionStep(r, ans) => SessionMemory(c, r, ans);
    case AttachedStep(t, ans) => AttachedMemory(c, t, ans);
    case AttemptStep(a, ans) => AttemptMemory(c, a, ans);
    case GivingUp(i) => assert HasDropped(GiveUp(c, i).pre) ==> HasDropped(c.pre);
    case Handling => HandledMemory(c);
    case _ =>
  }

  lemma HandledMemory(c: Core)
    ensures Handle(c).mem == c.mem && (HasDropped(Handle(c).pre) ==> HasDropped(c.pre))
  {
  }

  lemma SessionMemory(c: Core, r: nat, ans: Answer)
    requires Preamble.Inv(c) && Bounded(c.mem) && (HasDropped(c.pre) ==> Disjoint(c.mem))
    ensures var c' := ResumeSession(c, r, ans); Bounded(c'.mem) && (HasDropped(c'.pre) ==> Disjoint(c'.mem))
  {
    if HasDropped(c.pre) && r < |c.ses.runs| {
      assert c.ses.Current(r) ==> c.ses.runs[r].SDone?;
    }
  }

  lemma AttachedMemory(c: Core, t: nat, ans: Answer)
    requires Preamble.Inv(c) && Bounded(c.mem) && (HasDropped(c.pre) ==> Disjoint(c.mem))
    ensures var c' := ResumeAttached(c, t, ans); Bounded(c'.mem) && (HasDropped(c'.pre) ==> Disjoint(c'.mem))
  {
    if HasDropped(c.pre) && t < |c.att.runs| {
      assert c.att.Current(t) ==> c.att.runs[t].TDone?;
    }
  }

  lemma AttemptMemory(c: Core, a: nat, ans: Answer)
    requires Preamble.Inv(c) && Bounded(c.mem) && (HasDropped(c.pre) ==> Disjoint(c.mem))
    ensures var c' := ResumeAttempt(c, a, ans); Bounded(c'.mem) && (HasDropped(c'.pre) ==> Disjoint(c'.mem))
  {
    if a < |c.pre.runs| && !ANext(c, a, ans).AtDrop? {
      DroppedBefore(c, a, ans);
    }
  }

  /** Only the drop itself takes the current attempt to where the drop is behind it. */
  lemma DroppedBefore(c: Core, a: nat, ans: Answer)
    requires Preamble.Inv(c) && a < |c.pre.runs| && !ANext(c, a, ans).AtDrop?
    ensures var c' := ResumeAttempt(c, a, ans); c'.mem == c.mem && (HasDropped(c'.pre) ==> HasDropped(c.pre))
  {
    assert c.pre.memo.promise == Some(a) <==> c.pre.Current(a);
  }

  predicate Listens(e: Event) {
    e.WindowGone? || e.TabGone? || e.AttachedGone? || e.TabChosen? || e.SessionLost?
  }

  /** The tab listeners only take away, whoever is inside. */
  lemma ListenerKeeps(s: State, e: Event)
    requires PoolInv(s) && Listens(e)
    ensures PoolInv(Step(s, e))
  {
    var m := s.core.mem;
    var w := if e.WindowGone? || e.TabChosen? then e.w else 0;
    ListenersShrink(m, w, if e.WindowGone? || e.SessionLost? then 0 else e.t);
    SmallerMemoryKeeps(s, Step(s, e).core.mem);
  }

  lemma StepKeeps(s: State, e: Event)
    requires PoolInv(s)
    ensures PoolInv(Step(s, e))
  {
    match e
    case Preparing(e) => if !e.Continuing? { PreambleKeeps(s, e); }
    case Passing(i, plan) => PassKeeps(s, i, plan);
    case Entering(i) => EnterKeeps(s, i);
    case Answered(i, ok, mismatch) => ResumeKeeps(s, i, ok, mismatch);
    case NewTab(i, w, t, isPrivate, adopted) => MakeTabKeeps(s, i, w, t, isPrivate, adopted);
    case _ => ListenerKeeps(s, e);
  }

  lemma {:induction false} RunKeeps(es: seq<Event>)
    ensures PoolInv(Steps(es))
  {
    if es != [] {
      RunKeeps(es[..|es| - 1]);
      StepKeeps(Steps(es[..|es| - 1]), es[|es| - 1]);
    }
  }

  // ----- what it promises -----

  predicate CanGo(s: State, r: Run) {
    Holding(r) || (r.phase.Queued? && s.lock.Open(r.ticket))
  }

  /** In every run the pool never exceeds MAX_TABS, and once any command is past its preamble no
      tab is both in the pool and attached. */
  lemma PoolStaysSound(es: seq<Event>)
    ensures var s := Steps(es);
      && |s.core.mem.Pool()| <= MAX_TABS
      && ((exists i :: 0 <= i < |s.core.cmds| && s.core.cmds[i].stage == Passed) ==>
            forall t :: t in s.core.mem.Pool() ==> t !in s.core.mem.entries)
  {
    RunKeeps(es);
    var s := Steps(es);
    if i :| 0 <= i < |s.core.cmds| && s.core.cmds[i].stage == Passed {
      PassedMeansDropped(s, i);
    }
  }

  /** In every run at most one state command is inside, those that queued before it have left, and
      whenever somebody queues either the lock is held or the next in line can enter. */
  lemma StateCommandsTakeTurns(es: seq<Event>, i: nat)
    requires i in Steps(es).runs
    ensures var runs := Steps(es).runs;
      && (Holding(runs[i]) ==> forall j :: j in runs && j != i ==>
            !Holding(runs[j]) && (runs[j].ticket < runs[i].ticket ==> runs[j].phase.Left?))
      && (runs[i].phase.Queued? ==> exists j :: j in runs && CanGo(Steps(es), runs[j]))
  {
    RunKeeps(es);
    TurnsAreTaken(Steps(es), i);
  }

  lemma TurnsAreTaken(s: State, i: nat)
    requires PoolInv(s) && i in s.runs
    ensures Holding(s.runs[i]) ==> forall j :: j in s.runs && j != i ==>
      !Holding(s.runs[j]) && (s.runs[j].ticket < s.runs[i].ticket ==> s.runs[j].phase.Left?)
    ensures s.runs[i].phase.Queued? ==> exists j :: j in s.runs && CanGo(s, s.runs[j])
  {
    forall j | Holding(s.runs[i]) && j in s.runs && j != i
      ensures !Holding(s.runs[j]) && (s.runs[j].ticket < s.runs[i].ticket ==> s.runs[j].phase.Left?)
    {
      if Holding(s.runs[j]) {
        OneHolder(s, i, j);
      } else if s.runs[j].ticket < s.runs[i].ticket {
        L.EarlierResolved(s.lock, s.runs[j].ticket, s.runs[i].ticket - 1);
      }
    }
    if s.runs[i].phase.Queued? {
      SomebodyCanGo(s, s.runs[i].ticket);
    }
  }

  /** The first unreleased ticket belongs to a holder, or to a waiter whose turn it is. */
  lemma {:induction false} SomebodyCanGo(s: State, t: nat)
    requires PoolInv(s) && 0 < t <= s.lock.tail && t !in s.lock.resolved
    ensures exists j :: j in s.runs && CanGo(s, s.runs[j])
    decreases t
  {
    if t - 1 in s.lock.resolved {
      assert Owned(s.runs, t);
      var j :| j in s.runs && s.runs[j].ticket == t;
    } else {
      SomebodyCanGo(s, t - 1);
    }
  }

  /** Run `i` expired before it entered, and has not entered. */
  predicate LockedOut(s: State, i: nat) {
    i in s.runs && i < |s.core.cmds| && s.core.cmds[i].expired && (s.runs[i].phase.Queued? || s.runs[i].phase.Left?)
  }

  lemma OthersLeaveItOut(s: State, j: nat, i: nat, m: Mem, p: HPhase)
    requires LockedOut(s, i) && i != j
    ensures LockedOut(Move(WithMem(s, m), j, p), i) && LockedOut(Release(s, j), i)
  {
  }

  lemma PassingLeavesItOut(s: State, j: nat, plan: Plan, i: nat)
    requires PoolInv(s) && LockedOut(s, i)
    ensures LockedOut(Step(s, Passing(j, plan)), i)
  {
    if CanContinue(s.core, j) {
      ContinueFrame(s.core, j);
      assert i != j;
    }
  }

  lemma EnteringLeavesItOut(s: State, j: nat, i: nat)
    requires PoolInv(s) && LockedOut(s, i)
    ensures LockedOut(Step(s, Entering(j)), i) && (j == i ==> Step(s, Entering(j)).core.mem == s.core.mem)
  {
    if i != j && j in s.runs {
      var (m, p) := Begin(s.core.mem, s.runs[j].plan);
      OthersLeaveItOut(s, j, i, m, p);
    }
  }

  lemma AnswerLeavesItOut(s: State, j: nat, ok: bool, mismatch: bool, i: nat)
    requires PoolInv(s) && LockedOut(s, i)
    ensures LockedOut(Step(s, Answered(j, ok, mismatch)), i)
  {
    if i != j && j in s.runs {
      var (m, p) := Onward(s.core.mem, s.runs[j].phase, ok, mismatch);
      OthersLeaveItOut(s, j, i, m, p);
      assert Resume(s, j, ok, mismatch) in {s, Release(s, j), Move(WithMem(s, m), j, p)};
    } else {
      assert Resume(s, j, ok, mismatch) == s;
    }
  }

  /** A command that expired while it waited for the lock never enters: from then on it is only
      ever queued or gone, and its turn changes nothing in memory. */
  lemma ExpiredWaiterNeverEnters(s: State, e: Event, i: nat)
    requires PoolInv(s) && LockedOut(s, i)
    ensures LockedOut(Step(s, e), i)
    ensures e.Entering? && e.i == i ==> Step(s, e).core.mem == s.core.mem
  {
    match e
    case Preparing(e) => ExpiredStays(s.core, e, i);
    case Passing(j, plan) => PassingLeavesItOut(s, j, plan, i);
    case Entering(j) => EnteringLeavesItOut(s, j, i);
    case Answered(j, ok, mismatch) => AnswerLeavesItOut(s, j, ok, mismatch, i);
    case NewTab(j, w, t, isPrivate, adopted) => NewTabLeavesItOut(s, e, i);
    case _ => ListenerLeavesItOut(s, e, i);
  }

  lemma NewTabLeavesItOut(s: State, e: Event, i: nat)
    requires LockedOut(s, i) && e.NewTab?
    ensures LockedOut(Step(s, e), i)
  {
  }

  lemma ListenerLeavesItOut(s: State, e: Event, i: nat)
    requires LockedOut(s, i) && Listens(e)
    ensures LockedOut(Step(s, e), i)
  {
  }

  lemma ExpiredStays(c: Core, e: Preamble.Event, i: nat)
    requires i < |c.cmds| && c.cmds[i].expired
    ensures var c' := Preamble.Step(c, e); i < |c'.cmds| && c'.cmds[i].expired
  {
  }

  /** The same over any run: expired and queued after `n` steps, never inside after any more. */
  lemma {:induction false} ExpiredWaiterStaysOut(es: seq<Event>, n: nat, i: nat)
    requires n <= |es|
    requires LockedOut(Steps(es[..n]), i)
    ensures LockedOut(Steps(es), i)
    decreases |es| - n, |es|
  {
    if n == |es| {
      assert es[..n] == es;
    } else {
      var before := es[..|es| - 1];
      assert before[..n] == es[..n];
      ExpiredWaiterStaysOut(before, n, i);
      RunKeeps(before);
      ExpiredWaiterNeverEnters(Steps(before), es[|es| - 1], i);
    }
  }
}

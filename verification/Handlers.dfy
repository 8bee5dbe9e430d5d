/**
 What each state command makes of the tabs, whatever else goes on meanwhile (extension/src/handlers/window.ts,
 tabs.ts, attached.ts). A handler that is inside is alone with memory but for the tab listeners, so what
 it leaves follows from what it found, from the answers it got and from the listeners that fired.
 */
module Handlers {
  import opened Base
  import opened Tabs
  import opened Preamble
  import opened Pool
  import L = Lock

  // ----- alone -----

  predicate Owns(e: Pool.Event, i: nat) {
    (e.Answered? || e.NewTab?) && e.i == i
  }

  /** What a listener makes of memory. */
  function Heard(m: Mem, e: Pool.Event): Mem {
    match e
    case WindowGone(w) => WindowRemoved(m, w)
    case TabGone(t) => TabRemoved(m, t)
    case AttachedGone(t) => Forgotten(m, t)
    case TabChosen(w, t) => TabActivated(m, w, t)
    case SessionLost => m.Cleared()
    case _ => m
  }

  /** One of a handler's own events, with nobody else around. */
  function Takes(m: Mem, p: HPhase, e: Pool.Event): (Mem, HPhase) {
    if e.Answered? then
      if p.Leaving? then (m, Left) else Onward(m, p, e.ok, e.mismatch)
    else if e.NewTab? && e.t !in m.Pool() && e.t !in m.entries then
      if p.Creating? then (m, Created(p.ident, e.t))
      else if p.Opening? then (m, Opened(e.w, e.t, e.isPrivate, e.adopted))
      else (m, p)
    else (m, p)
  }

  /** Handler `i` from phase `p` on: its own events and the listeners. */
  function Alone(m: Mem, p: HPhase, es: seq<Pool.Event>, i: nat): (Mem, HPhase)
    decreases |es|
  {
    if es == [] || p.Left? then (m, p)
    else
      var (m', p') := Next(m, p, es[0], i);
      Alone(m', p', es[1..], i)
  }

  function Next(m: Mem, p: HPhase, e: Pool.Event, i: nat): (Mem, HPhase) {
    if Owns(e, i) then Takes(m, p, e) else (Heard(m, e), p)
  }

  /** The machine from any state on. */
  function After(s: State, es: seq<Pool.Event>): State
    decreases |es|
  {
    if es == [] then s else After(Pool.Step(s, es[0]), es[1..])
  }

  lemma {:induction false} AfterRun(es: seq<Pool.Event>, more: seq<Pool.Event>)
    ensures Pool.Steps(es + more) == After(Pool.Steps(es), more)
    decreases |more|
  {
    if more == [] {
      assert es + more == es;
    } else {
      assert (es + [more[0]])[..|es|] == es;
      AfterRun(es + [more[0]], more[1..]);
      assert (es + [more[0]]) + more[1..] == es + more;
    }
  }

  predicate Inside(s: State, i: nat) {
    i in s.runs && Holding(s.runs[i])
  }

  /** While `i` is inside nobody else enters, resumes or gets a tab. */
  lemma OthersWait(s: State, i: nat, j: nat)
    requires PoolInv(s) && Inside(s, i) && i != j
    ensures !Inside(s, j)
    ensures j in s.runs && s.runs[j].phase.Queued? ==> !s.lock.Open(s.runs[j].ticket)
  {
    if Inside(s, j) { OneHolder(s, i, j); }
    if j in s.runs && s.runs[j].phase.Queued? && s.lock.Open(s.runs[j].ticket) {
      L.MutualExclusion(s.lock, s.runs[i].ticket, s.runs[j].ticket);
    }
  }

  /** Memory and the phase of `i` as in the other state. */
  predicate Same(s: State, n: State, i: nat)
    requires i in s.runs
  {
    n.core.mem == s.core.mem && i in n.runs && n.runs[i] == s.runs[i]
  }

  lemma PreparingLeavesIt(s: State, e: Preamble.Event, i: nat)
    requires PoolInv(s) && Inside(s, i)
    ensures Same(s, Pool.Step(s, Preparing(e)), i)
  {
    AfterPassing(s.core, e, i);
  }

  lemma PassingLeavesIt(s: State, j: nat, plan: Plan, i: nat)
    requires PoolInv(s) && Inside(s, i)
    ensures Same(s, Pass(s, j, plan), i)
  {
    if CanContinue(s.core, j) {
      ContinueFrame(s.core, j);
      PassedRunsOk(s, j, plan);
    }
  }

  lemma OthersLeaveIt(s: State, e: Pool.Event, i: nat)
    requires PoolInv(s) && Inside(s, i) && !Owns(e, i) && !Listens(e)
    ensures Same(s, Pool.Step(s, e), i)
  {
    match e
    case Preparing(p) => PreparingLeavesIt(s, p, i);
    case Passing(j, plan) => PassingLeavesIt(s, j, plan, i);
    case Entering(j) => if j != i { OthersWait(s, i, j); }
    case Answered(j, ok, mismatch) => OthersWait(s, i, j);
    case NewTab(j, w, t, isPrivate, adopted) => OthersWait(s, i, j);
    case _ =>
  }

  lemma HeardStep(s: State, e: Pool.Event)
    requires Listens(e)
    ensures Pool.Step(s, e) == WithMem(s, Heard(s.core.mem, e))
  {
  }

  lemma OwnStep(s: State, e: Pool.Event, i: nat)
    requires PoolInv(s) && Inside(s, i) && Owns(e, i)
    ensures var n := Pool.Step(s, e);
      i in n.runs && (n.core.mem, n.runs[i].phase) == Takes(s.core.mem, s.runs[i].phase, e)
  {
  }

  lemma {:induction false} LeftStays(s: State, es: seq<Pool.Event>, i: nat)
    requires PoolInv(s) && i in s.runs && s.runs[i].phase.Left?
    ensures i in After(s, es).runs && After(s, es).runs[i].phase.Left?
    decreases |es|
  {
    if es != [] {
      Pool.StepKeeps(s, es[0]);
      LeftStep(s, es[0], i);
      LeftStays(Pool.Step(s, es[0]), es[1..], i);
    }
  }

  lemma LeftStep(s: State, e: Pool.Event, i: nat)
    requires PoolInv(s) && i in s.runs && s.runs[i].phase.Left?
    ensures i in Pool.Step(s, e).runs && Pool.Step(s, e).runs[i].phase.Left?
  {
    match e
    case Passing(j, plan) => if CanContinue(s.core, j) { PassedRunsOk(s, j, plan); }
    case Entering(j) => LeftAtEntering(s, j, i);
    case Answered(j, ok, mismatch) => LeftAtAnswer(s, j, ok, mismatch, i);
    case NewTab(j, w, t, isPrivate, adopted) => LeftAtNewTab(s, e, i);
    case _ =>
  }

  lemma LeftAtNewTab(s: State, e: Pool.Event, i: nat)
    requires e.NewTab? && i in s.runs && s.runs[i].phase.Left?
    ensures i in Pool.Step(s, e).runs && Pool.Step(s, e).runs[i].phase.Left?
  {
  }

  lemma LeftAtEntering(s: State, j: nat, i: nat)
    requires i in s.runs && s.runs[i].phase.Left?
    ensures i in Pool.Enter(s, j).runs && Pool.Enter(s, j).runs[i].phase.Left?
  {
  }

  lemma LeftAtAnswer(s: State, j: nat, ok: bool, mismatch: bool, i: nat)
    requires i in s.runs && s.runs[i].phase.Left?
    ensures var n := Pool.Resume(s, j, ok, mismatch); i in n.runs && n.runs[i].phase.Left?
  {
  }

  /** A step as `i` sees it. */
  predicate Follows(s: State, n: State, e: Pool.Event, i: nat)
    requires i in s.runs
  {
    i in n.runs && (n.core.mem, n.runs[i].phase) == Next(s.core.mem, s.runs[i].phase, e, i)
  }

  lemma InsideStep(s: State, e: Pool.Event, i: nat)
    requires PoolInv(s) && Inside(s, i)
    ensures Follows(s, Pool.Step(s, e), e, i)
    ensures Pool.Step(s, e).runs[i].phase != Queued
  {
    if Owns(e, i) {
      OwnStep(s, e, i);
      NeverQueuesAgain(s.core.mem, s.runs[i].phase, e);
    } else if Listens(e) {
      HeardStep(s, e);
    } else {
      OthersLeaveIt(s, e, i);
    }
  }

  lemma NeverQueuesAgain(m: Mem, p: HPhase, e: Pool.Event)
    requires p != Queued
    ensures Takes(m, p, e).1 != Queued
  {
  }

  /** Isolation: in every run, whatever commands, restores and attempts go on beside it, a handler that
      is inside finds memory as its own events and the listeners left it, up to the release of the lock. */
  lemma {:induction false} Isolated(s: State, es: seq<Pool.Event>, i: nat)
    requires PoolInv(s) && Inside(s, i)
    ensures Agrees(After(s, es), Alone(s.core.mem, s.runs[i].phase, es, i), i)
    decreases |es|
  {
    if es != [] {
      var n := Pool.Step(s, es[0]);
      Pool.StepKeeps(s, es[0]);
      InsideStep(s, es[0], i);
      if n.runs[i].phase.Left? {
        LeftStays(n, es[1..], i);
      } else {
        Isolated(n, es[1..], i);
      }
    }
  }

  /** Where handler `i` is, and memory as long as it is inside. */
  predicate Agrees(s: State, r: (Mem, HPhase), i: nat) {
    i in s.runs && s.runs[i].phase == r.1 && (!r.1.Left? ==> s.core.mem == r.0)
  }

  // ----- one command -----

  predicate Quiet(es: seq<Pool.Event>) {
    forall e :: e in es ==> !Listens(e)
  }

  /** The handler's own events of a run, in order. */
  function OwnOf(es: seq<Pool.Event>, i: nat): seq<Pool.Event> {
    if es == [] then [] else (if Owns(es[0], i) then [es[0]] else []) + OwnOf(es[1..], i)
  }

  lemma {:induction false} AloneIsOwn(m: Mem, p: HPhase, es: seq<Pool.Event>, i: nat)
    requires Quiet(es)
    ensures Alone(m, p, es, i) == Alone(m, p, OwnOf(es, i), i)
    decreases |es|
  {
    if es != [] && !p.Left? {
      assert es[0] in es;
      var (m', p') := Next(m, p, es[0], i);
      AloneIsOwn(m', p', es[1..], i);
      if Owns(es[0], i) {
        Alone1(m, p, es[0], OwnOf(es[1..], i), i);
      } else {
        assert [] + OwnOf(es[1..], i) == OwnOf(es[1..], i);
      }
    }
  }

  lemma Alone1(m: Mem, p: HPhase, e: Pool.Event, es: seq<Pool.Event>, i: nat)
    requires !p.Left?
    ensures var (m', p') := Next(m, p, e, i); Alone(m, p, [e] + es, i) == Alone(m', p', es, i)
  {
    assert ([e] + es)[1..] == es;
  }

  /** The lock is open for command `i`, and its deadline has not fired. */
  predicate MayEnter(s: State, i: nat) {
    && i in s.runs && s.runs[i].phase.Queued? && s.lock.Open(s.runs[i].ticket)
    && i < |s.core.cmds| && !s.core.cmds[i].expired
  }

  /** A whole command: what it makes of memory when it gets the events `own` and no others. */
  function Whole(m: Mem, plan: Plan, own: seq<Pool.Event>, i: nat): (Mem, HPhase) {
    var (m', p) := Begin(m, plan);
    Alone(m', p, own, i)
  }

  lemma Enters(s: State, i: nat)
    requires PoolInv(s) && MayEnter(s, i)
    ensures var n := Pool.Step(s, Entering(i));
      Inside(n, i) && (n.core.mem, n.runs[i].phase) == Begin(s.core.mem, s.runs[i].plan)
  {
    BeginsInside(s.core.mem, s.runs[i].plan);
  }

  lemma BeginsInside(m: Mem, plan: Plan)
    ensures Begin(m, plan).1 != Queued && Begin(m, plan).1 != Left
  {
  }

  /** In every run a command that the lock lets in makes of memory what it would make of it alone, as
      long as no tab listener fires: everything else that goes on keeps out of its way. */
  lemma {:induction false} CommandsRunAlone(es: seq<Pool.Event>, more: seq<Pool.Event>, i: nat)
    requires MayEnter(Pool.Steps(es), i) && Quiet(more)
    ensures var s := Pool.Steps(es);
      Agrees(Pool.Steps(es + [Entering(i)] + more), Whole(s.core.mem, s.runs[i].plan, OwnOf(more, i), i), i)
  {
    var s, e := Pool.Steps(es), Entering(i);
    Pool.RunKeeps(es);
    Enters(s, i);
    var n := Pool.Step(s, e);
    Pool.StepKeeps(s, e);
    assert (es + [e])[..|es|] == es;
    AfterRun(es + [e], more);
    Isolated(n, more, i);
    AloneIsOwn(n.core.mem, n.runs[i].phase, more, i);
  }

  // ----- createWindow -----

  /** The pool with room for one more: all of it, or all but the oldest tab. */
  function Room(tabs: seq<TabId>): seq<TabId> {
    if |tabs| >= MAX_TABS then tabs[1..] else tabs
  }

  /** The session is the same one, with other tabs and another active tab perhaps. */
  predicate SameSession(m: Mem, n: Mem) {
    && m.state.Some? && n.state.Some? && n.entries == m.entries
    && n.state.value == m.state.value.(tabs := n.state.value.tabs)
  }

  predicate FreshTab(m: Mem, e: Pool.Event, i: nat) {
    e.NewTab? && e.i == i && e.t !in m.Pool() && e.t !in m.entries
  }

  /** The window of the session is there and of the mode asked for; of a full pool the oldest tab is
      closed, which Firefox may refuse. */
  function Looked(m: Mem, i: nat, closed: bool): seq<Pool.Event> {
    [Answered(i, true, false)] + if |m.Pool()| >= MAX_TABS then [Answered(i, closed, false)] else []
  }

  lemma RoomIsMade(m: Mem, i: nat, closed: bool, rest: seq<Pool.Event>)
    requires m.state.Some?
    ensures Whole(m, Create, Looked(m, i, closed) + rest, i)
         == Alone(m.WithTabs(Room(m.Pool())), Creating(m.state.value.ident), rest, i)
  {
    var kept := m.WithTabs(Room(m.Pool()));
    var looked := Answered(i, true, false);
    if |m.Pool()| >= MAX_TABS {
      var shut := Answered(i, closed, false);
      assert Looked(m, i, closed) + rest == [looked] + ([shut] + rest);
      Alone1(m, CheckingWindow, looked, [shut] + rest, i);
      Alone1(kept, Evicting(m.state.value.ident), shut, rest, i);
    } else {
      assert Looked(m, i, closed) + rest == [looked] + rest;
      Alone1(m, CheckingWindow, looked, rest, i);
    }
  }

  /** createWindow on a session whose window is there adds one tab: afterwards the pool is the tabs that
      were there, in order, without the oldest exactly when they were MAX_TABS, and then the new tab,
      which is active. Session, window and attachments stay. */
  lemma CreateWindowAdds(m: Mem, i: nat, closed: bool, e: Pool.Event, ok: bool)
    requires m.state.Some? && FreshTab(m, e, i)
    ensures var (n, p) := Whole(m, Create, Looked(m, i, closed) + [e, Answered(i, ok, false)], i);
      p == Leaving && n.Pool() == Room(m.Pool()) + [e.t] && n.active == Some(e.t) && SameSession(m, n)
  {
    var last := Answered(i, ok, false);
    var ident, kept := m.state.value.ident, m.WithTabs(Room(m.Pool()));
    RoomIsMade(m, i, closed, [e, last]);
    assert [e, last] == [e] + [last] && [last] == [last] + [];
    Alone1(kept, Creating(ident), e, [last], i);
    Alone1(kept, Created(ident, e.t), last, [], i);
  }

  /** When the tab cannot be made, nothing joins the pool, and a tab evicted for it stays out. */
  lemma CreateWindowFails(m: Mem, i: nat, closed: bool)
    requires m.state.Some?
    ensures Whole(m, Create, Looked(m, i, closed) + [Answered(i, false, false)], i)
         == (m.WithTabs(Room(m.Pool())), Leaving)
  {
    var last := Answered(i, false, false);
    RoomIsMade(m, i, closed, [last]);
    assert [last] == [last] + [];
    Alone1(m.WithTabs(Room(m.Pool())), Creating(m.state.value.ident), last, [], i);
  }

  /** A request for the other mode changes nothing. */
  lemma CreateWindowRefuses(m: Mem, i: nat)
    requires m.state.Some?
    ensures Whole(m, Create, [Answered(i, true, true)], i) == (m, Leaving)
  {
    var last := Answered(i, true, true);
    assert [last] == [last] + [];
    Alone1(m, CheckingWindow, last, [], i);
  }

  /** Without a session, or with one whose window is gone, a session of its own is opened: one tab, which
      is active, in the window it was made in, and no session object seen before. */
  lemma CreateWindowOpens(m: Mem, i: nat, e: Pool.Event, gone: Pool.Event, written: Pool.Event, ok: bool)
    requires e.NewTab? && e.i == i && e.t !in m.entries
    requires gone.Answered? && gone.i == i && !gone.ok && written.Answered? && written.i == i && written.ok
    ensures var own := (if m.state.Some? then [gone, written] else []) + [e, Answered(i, ok, false)];
      Whole(m, Create, own, i)
        == (Mem(Some(SessionState(m.objects, e.w, [e.t], e.isPrivate, e.adopted)), Some(e.t), m.entries, m.objects + 1),
            Leaving)
  {
    var rest := [e, Answered(i, ok, false)];
    if m.state.Some? {
      assert [gone, written] + rest == [gone] + ([written] + rest);
      Alone1(m, CheckingWindow, gone, [written] + rest, i);
      Alone1(m.Cleared(), Clearing, written, rest, i);
      OpensAlone(m.Cleared(), i, e, ok);
    } else {
      assert [] + rest == rest;
      OpensAlone(m, i, e, ok);
    }
  }

  lemma OpensAlone(m: Mem, i: nat, e: Pool.Event, ok: bool)
    requires m.state.None? && FreshTab(m, e, i)
    ensures Alone(m, Opening, [e, Answered(i, ok, false)], i)
         == (m.Open(e.w, [e.t], e.isPrivate, e.adopted, Some(e.t)), Leaving)
  {
    var last := Answered(i, ok, false);
    assert [e, last] == [e] + [last] && [last] == [last] + [];
    Alone1(m, Opening, e, [last], i);
    Alone1(m, Opened(e.w, e.t, e.isPrivate, e.adopted), last, [], i);
  }

  // ----- closeTab, closeWindow, attachTab, detachTab -----

  /** The first `t` of the tabs is out, and the others are in order. */
  predicate OneOut(tabs: seq<TabId>, t: TabId, left: seq<TabId>) {
    exists k :: 0 <= k < |tabs| && tabs[k] == t && t !in tabs[..k] && left == tabs[..k] + tabs[k + 1..]
  }

  lemma WithoutIsOneOut(tabs: seq<TabId>, t: TabId)
    requires t in tabs
    ensures OneOut(tabs, t, Without(tabs, t))
  {
    var k := IndexOf(tabs, t);
    assert tabs[k] == t;
  }

  /** closeTab forgets an attached tab and leaves the pool alone; it takes a pool tab out of the pool,
      and if that was the active one the last of the pool is; any other tab changes nothing. */
  lemma CloseTabCloses(m: Mem, t: TabId, i: nat, ok: bool)
    ensures t in m.entries ==> Whole(m, CloseTab(t), [], i) == (m.(entries := m.entries - {t}), Leaving)
    ensures t !in m.entries && t !in m.Pool() ==> Whole(m, CloseTab(t), [], i) == (m, Leaving)
    ensures t !in m.entries && t in m.Pool() ==>
      var (n, p) := Whole(m, CloseTab(t), [Answered(i, ok, false)], i);
      && p == Leaving && OneOut(m.Pool(), t, n.Pool()) && SameSession(m, n)
      && n.active == if m.active == Some(t) then Last(n.Pool()) else m.active
  {
    if t !in m.entries && t in m.Pool() {
      var last := Answered(i, ok, false);
      assert [last] == [last] + [];
      WithoutIsOneOut(m.Pool(), t);
      Alone1(m.WithTabs(Without(m.Pool(), t)), Closing(m.state.value.ident, t), last, [], i);
    }
  }

  /** closeWindow ends the session and leaves the attachments. */
  lemma CloseWindowEnds(m: Mem, i: nat)
    ensures var (n, p) := Whole(m, CloseWindow, [], i);
      p == Leaving && n.state.None? && n.entries == m.entries && (m.state.Some? ==> n.active.None?)
        && (m.state.None? ==> n == m)
  {
  }

  /** attachTab attaches exactly a tab that exists and is not of the pool, and nothing else. */
  lemma AttachTabAttaches(m: Mem, t: TabId, i: nat, found: bool)
    ensures t in m.Pool() ==> Whole(m, Attach(t), [], i) == (m, Leaving)
    ensures t !in m.Pool() ==>
      Whole(m, Attach(t), [Answered(i, found, false)], i)
        == (m.(entries := if found then m.entries + {t} else m.entries), Leaving)
  {
    if t !in m.Pool() {
      var last := Answered(i, found, false);
      assert [last] == [last] + [];
      Alone1(m, Attaching(t), last, [], i);
    }
  }

  /** detachTab forgets that tab alone. */
  lemma DetachTabDetaches(m: Mem, t: TabId, i: nat)
    ensures Whole(m, Detach(t), [], i) == (m.(entries := m.entries - {t}), Leaving)
  {
  }

  // ----- every step of every run -----

  /** What an event does to the pool. */
  datatype Move =
    | Stays
    | Ends                     // the session is over
    | Loses(t: TabId)          // closed, or being closed
    | LosesOldest              // evicted to make room
    | Gains(t: TabId)          // made by createWindow
    | Opens(tabs: seq<TabId>)  // a session of createWindow or of a restore

  predicate Full(m: Mem, mismatch: bool) {
    m.state.Some? && !mismatch && |m.Pool()| >= MAX_TABS
  }

  function EntryMove(m: Mem, plan: Plan): Move {
    if plan.CloseWindow? then Ends
    else if plan.CloseTab? && plan.t !in m.entries && plan.t in m.Pool() then Loses(plan.t)
    else Stays
  }

  function AnswerMove(m: Mem, p: HPhase, ok: bool, mismatch: bool): Move {
    if p.CheckingWindow? && !ok then Ends
    else if (p.CheckingWindow? || p.Clearing?) && ok && Full(m, mismatch) then LosesOldest
    else if p.Created? && m.Holds(p.ident) then Gains(p.t)
    else if p.Opened? then Opens([p.t])
    else Stays
  }

  function RestoreMove(c: Core, r: nat, ans: Answer): Move {
    if r >= |c.ses.runs| || !c.ses.Current(r) then Stays
    else
      match c.ses.runs[r]
      case AtWindow(saved) =>
        if !ans.Window? then Stays
        else if ans.live.None? then Ends
        else if |Restored(saved, ans.live.value)| <= MAX_TABS then Opens(Restored(saved, ans.live.value))
        else Stays
      case AtTrim(_, kept) => if ans.Done? && |kept| <= MAX_TABS then Opens(kept) else Stays
      case _ => Stays
  }

  function MoveOf(s: State, e: Pool.Event): Move {
    var m := s.core.mem;
    match e
    case WindowGone(w) => if m.state.Some? && m.state.value.windowId == w then Ends else Stays
    case TabGone(t) => if t in m.Pool() then Loses(t) else Stays
    case SessionLost => Ends
    case Entering(i) => if MayEnter(s, i) then EntryMove(m, s.runs[i].plan) else Stays
    case Answered(i, ok, mismatch) => if Inside(s, i) then AnswerMove(m, s.runs[i].phase, ok, mismatch) else Stays
    case Preparing(p) => if p.SessionStep? then RestoreMove(s.core, p.r, p.ans) else Stays
    case _ => Stays
  }

  /** The pool before and after a move; only `Ends` and `Opens` give up the session object. */
  predicate Moved(m: Mem, move: Move, n: Mem) {
    match move
    case Stays => n.state == m.state
    case Ends => n.state.None?
    case Loses(t) => OneOut(m.Pool(), t, n.Pool()) && SameObject(m, n)
    case LosesOldest => |m.Pool()| == MAX_TABS && n.Pool() == m.Pool()[1..] && SameObject(m, n)
    case Gains(t) => |m.Pool()| < MAX_TABS && n.Pool() == m.Pool() + [t] && SameObject(m, n)
    case Opens(tabs) =>
      |tabs| <= MAX_TABS && n.Pool() == tabs && n.state.Some? && n.state.value.ident == m.objects
        && n.objects == m.objects + 1
  }

  predicate SameObject(m: Mem, n: Mem) {
    m.state.Some? && n.state.Some? && n.state.value == m.state.value.(tabs := n.state.value.tabs)
  }

  /** In every run the pool changes by these events and in these ways only: a tab is evicted only from a
      full pool and only its first, a tab joins only at the end, and the order never changes. */
  lemma {:induction false} PoolMoves(es: seq<Pool.Event>, e: Pool.Event)
    ensures var s := Pool.Steps(es); Moved(s.core.mem, MoveOf(s, e), Pool.Steps(es + [e]).core.mem)
  {
    Pool.RunKeeps(es);
    assert (es + [e])[..|es|] == es;
    StepMoves(Pool.Steps(es), e);
  }

  lemma StepMoves(s: State, e: Pool.Event)
    requires PoolInv(s)
    ensures Moved(s.core.mem, MoveOf(s, e), Pool.Step(s, e).core.mem)
  {
    match e
    case Entering(i) => EntryMoves(s, i);
    case Answered(i, ok, mismatch) => AnswerMoves(s, i, ok, mismatch);
    case Preparing(p) => PreambleMoves(s, p);
    case Passing(i, plan) => ContinueMoves(s, i);
    case NewTab(i, w, t, isPrivate, adopted) =>
    case _ => ListenersTell(s, e);
  }

  /** The active tab after a listener: a tab of the pool that was chosen in its window is, the last of the
      pool when the active one went, and none when the window of the session went. */
  function ActiveAfter(m: Mem, e: Pool.Event, n: Mem): Option<TabId> {
    match e
    case TabGone(t) => if t in m.Pool() && m.active == Some(t) then Last(n.Pool()) else m.active
    case TabChosen(w, t) => if m.state.Some? && m.state.value.windowId == w && t in m.Pool() then Some(t) else m.active
    case WindowGone(w) => if m.state.Some? && m.state.value.windowId == w then None else m.active
    case SessionLost => None
    case _ => m.active
  }

  lemma ListenersTell(s: State, e: Pool.Event)
    requires Listens(e)
    ensures var m := s.core.mem; var n := Pool.Step(s, e).core.mem;
      && Moved(m, MoveOf(s, e), n) && n.active == ActiveAfter(m, e, n)
      && n.entries == if e.AttachedGone? then m.entries - {e.t} else m.entries
  {
    if e.TabGone? { TabGoneTells(s.core.mem, e.t); }
  }

  lemma TabGoneTells(m: Mem, t: TabId)
    ensures var n := TabRemoved(m, t);
      && Moved(m, if t in m.Pool() then Loses(t) else Stays, n) && n.entries == m.entries
      && n.active == if t in m.Pool() && m.active == Some(t) then Last(n.Pool()) else m.active
  {
    if t in m.Pool() { WithoutIsOneOut(m.Pool(), t); }
  }

  lemma ContinueMoves(s: State, i: nat)
    ensures Preamble.Continue(s.core, i).mem == s.core.mem
  {
  }

  lemma BeginMoves(m: Mem, plan: Plan)
    ensures Moved(m, EntryMove(m, plan), Begin(m, plan).0)
  {
    if plan.CloseTab? && plan.t in m.Pool() { WithoutIsOneOut(m.Pool(), plan.t); }
  }

  lemma EntryMoves(s: State, i: nat)
    requires PoolInv(s)
    ensures Moved(s.core.mem, MoveOf(s, Entering(i)), Pool.Step(s, Entering(i)).core.mem)
  {
    if MayEnter(s, i) {
      Enters(s, i);
      BeginMoves(s.core.mem, s.runs[i].plan);
    } else {
      NotEntering(s, i);
    }
  }

  lemma NotEntering(s: State, i: nat)
    requires !MayEnter(s, i)
    ensures Pool.Enter(s, i).core == s.core
  {
  }

  lemma OnwardMoves(m: Mem, p: HPhase, ok: bool, mismatch: bool)
    requires Bounded(m) && PhaseOk(p, m)
    ensures Moved(m, AnswerMove(m, p, ok, mismatch), Onward(m, p, ok, mismatch).0)
  {
  }

  lemma AnswerMoves(s: State, i: nat, ok: bool, mismatch: bool)
    requires PoolInv(s)
    ensures var e := Answered(i, ok, mismatch); Moved(s.core.mem, MoveOf(s, e), Pool.Step(s, e).core.mem)
  {
    if Inside(s, i) {
      OwnStep(s, Answered(i, ok, mismatch), i);
      OnwardMoves(s.core.mem, s.runs[i].phase, ok, mismatch);
    }
  }

  lemma PreambleMoves(s: State, e: Preamble.Event)
    requires PoolInv(s)
    ensures Moved(s.core.mem, MoveOf(s, Preparing(e)), Pool.Step(s, Preparing(e)).core.mem)
  {
    match e
    case SessionStep(r, ans) => RestoreMoves(s.core, r, ans);
    case AttachedStep(t, ans) =>
    case AttemptStep(a, ans) => AttemptMoves(s.core, a, ans);
    case GivingUp(i) => GiveUpMoves(s.core, i);
    case _ =>
  }

  lemma RestoreMoves(c: Core, r: nat, ans: Answer)
    requires Bounded(c.mem)
    ensures Moved(c.mem, RestoreMove(c, r, ans), ResumeSession(c, r, ans).mem)
  {
  }

  lemma AttemptMoves(c: Core, a: nat, ans: Answer)
    ensures ResumeAttempt(c, a, ans).mem.state == c.mem.state
  {
  }

  lemma GiveUpMoves(c: Core, i: nat)
    ensures GiveUp(c, i).mem == c.mem
  {
  }
}

/**
 The command preamble: extension/src/dispatch.ts over the restores of session.ts and
 attached.ts. Concurrent commands share one attempt of `prepareOnce`, which shares one
 restore of the session and one of the attachments. Each of the three is memoised.

 A step is one stretch of code between two awaits. Steps of different attempts, restores
 and commands interleave freely, and an await may resume any time after what it waits for
 settled, so every schedule of the microtask queue is among the runs below.
 */
module Preamble {
  import opened Base
  import M = Memo
  import opened Tabs

  /** Where `restoreOnce` and `readStoredState` of one session restore are. */
  datatype SPhase =
    | AtStorage                                  // awaits storage.get
    | AtWindow(saved: Saved)                     // awaits windows.get
    | AtClear | AtClearAgain                     // await the writes after the window was found gone
    | AtTrim(saved: Saved, kept: seq<TabId>)     // awaits tabs.remove of an evicted tab
    | AtPersist | AtPersistAgain                 // await the writes of the restored state
    | Read                                       // readStoredState has returned
    | AtSweep                                    // awaits the sweep of duplicate windows
    | SDone | SStale | SFailed
  {
    predicate Settled() {
      SDone? || SStale? || SFailed?
    }
  }

  /** Where `readStored` of one restore of the attachments is. */
  datatype TPhase =
    | AtItems                      // awaits storage.get
    | AtTab(rest: seq<TabId>)      // awaits tabs.get(rest[0])
    | AtWrite | AtWriteAgain       // await the persists
    | TDone | TStale | TFailed
  {
    predicate Settled() {
      TDone? || TStale? || TFailed?
    }
  }

  /** Where one attempt of `prepareOnce` is. */
  datatype APhase = AtSession | AtAttached | AtDrop(writes: bool) | AtDropAgain | ADone | AStale | AFailed {
    predicate Settled() {
      ADone? || AStale? || AFailed?
    }
  }

  /** `session` and `attached` name the restores the attempt awaited; `restores` of dispatch.ts
      holds the one it awaits now. */
  datatype Attempt = Attempt(phase: APhase, session: nat, attached: nat)

  datatype Stage = Waiting | Passed | Over

  /** One command in flight. `counted` is false once its give-up was taken off the waiters. */
  datatype Cmd = Cmd(joined: nat, preamble: Option<nat>, expired: bool, gaveUp: bool, counted: bool, stage: Stage)

  datatype Core = Core(
    pre: M.Layer<Attempt>,
    ses: M.Layer<SPhase>,
    att: M.Layer<TPhase>,
    restores: Option<nat>,   // whose record `this.restores` is
    cmds: seq<Cmd>,
    mem: Mem,
    swept: bool)

  const INIT := Core(M.Layer(M.EMPTY, [], []), M.Layer(M.EMPTY, [], []), M.Layer(M.EMPTY, [], []), None, [], EMPTY,
    false)

  /** What the browser answered. */
  datatype Answer =
    | Fails
    | Done
    | Item(saved: Option<Saved>)
    | Window(live: Option<seq<TabId>>)
    | Items(ids: seq<TabId>)
    | Found(yes: bool)

  // ----- starting and giving up -----

  function FirstSPhase(m: Mem): SPhase {
    if m.state.Some? then Read else AtStorage
  }

  /** `Session.restore`. */
  function RestoreSession(c: Core, tracked: bool): Core {
    c.(ses := c.ses.Run(tracked, FirstSPhase(c.mem)))
  }

  /** `prepare` up to its await; a fresh attempt runs `prepareOnce` up to its first await. */
  function Handle(c: Core): Core {
    var a := c.pre.Shared();
    var cmds := c.cmds + [Cmd(a, Some(a), false, false, true, Waiting)];
    var pre := c.pre.Run(true, Attempt(AtSession, c.ses.Shared(), 0));
    if c.pre.memo.promise.Some? then c.(pre := pre, cmds := cmds)
    else RestoreSession(c, true).(pre := pre, cmds := cmds, restores := Some(a))
  }

  /** The second half of `abandonPreamble`, for the attempt whose record `this.restores` is. */
  function AbandonRestores(c: Core): Core {
    if c.restores.None? || c.restores.value >= |c.pre.runs| then c
    else
      var a := c.pre.runs[c.restores.value];
      if a.phase.AtSession? then c.(ses := c.ses.Abandon(a.session))
      else if a.phase.AtAttached? then c.(att := c.att.Abandon(a.attached))
      else c
  }

  predicate WillCount(c: Core, i: nat) {
    i < |c.cmds| && c.cmds[i].preamble.Some? && c.pre.memo.promise == c.cmds[i].preamble
  }

  /** `abandonPreamble`, run once by a command that found itself expired. */
  function GiveUp(c: Core, i: nat): Core {
    if i >= |c.cmds| || !c.cmds[i].expired || c.cmds[i].gaveUp then c
    else
      var cmd := c.cmds[i];
      var told := c.(cmds := c.cmds[i := cmd.(gaveUp := true, counted := cmd.counted && !WillCount(c, i))]);
      if cmd.preamble.None? then told
      else
        var a := cmd.preamble.value;
        var left := told.(pre := c.pre.Abandon(a));
        if c.pre.memo.AbandonEvicts(a) then AbandonRestores(left) else left
  }

  function Deadline(c: Core, i: nat): Core {
    if i >= |c.cmds| then c else c.(cmds := c.cmds[i := c.cmds[i].(expired := true)])
  }

  // ----- one session restore -----

  /** From the eviction loop on: a stale return, another round, or the write of the new state. */
  function AfterTrim(saved: Saved, kept: seq<TabId>, current: bool): SPhase {
    if !current then Read else if |kept| > MAX_TABS then AtTrim(saved, kept[1..]) else AtPersist
  }

  /** Where a session restore goes from `p`; an answer it does not wait for leaves it there. */
  function SNext(p: SPhase, ans: Answer, current: bool): SPhase {
    match p
    case AtStorage =>
      if ans.Fails? then SFailed
      else if !ans.Item? then p
      else if current && ans.saved.Some? then AtWindow(ans.saved.value)
      else Read
    case AtWindow(saved) =>
      if !ans.Window? then p
      else if !current then Read
      else if ans.live.None? then AtClear
      else AfterTrim(saved, Restored(saved, ans.live.value), current)
    case AtTrim(saved, kept) => if ans.Done? then AfterTrim(saved, kept, current) else p
    case AtClear => if ans.Fails? then SFailed else if current then Read else AtClearAgain
    case AtPersist => if ans.Fails? then SFailed else if current then Read else AtPersistAgain
    case AtClearAgain => if ans.Fails? then SFailed else Read
    case AtPersistAgain => if ans.Fails? then SFailed else Read
    case Read => if current then AtSweep else SStale
    case AtSweep => SDone
    case _ => p
  }

  function Assigned(m: Mem, saved: Saved, kept: seq<TabId>): Mem {
    if |kept| > MAX_TABS then m else m.Open(saved.windowId, kept, false, saved.adopted, Last(kept))
  }

  /** What the same stretch does to memory. */
  function SMem(p: SPhase, ans: Answer, current: bool, m: Mem): Mem {
    if !current then m
    else if p.AtWindow? && ans.Window? then
      if ans.live.None? then m.Cleared() else Assigned(m, p.saved, Restored(p.saved, ans.live.value))
    else if p.AtTrim? && ans.Done? then Assigned(m, p.saved, p.kept)
    else m
  }

  function ResumeSession(c: Core, r: nat, ans: Answer): Core {
    if r >= |c.ses.runs| then c
    else
      var p := c.ses.runs[r];
      var current := c.ses.Current(r);
      var next := SNext(p, ans, current);
      var ses := if next.SFailed? && !p.SFailed? then c.ses.Fail(r, SFailed) else c.ses.At(r, next);
      c.(ses := ses, mem := SMem(p, ans, current, c.mem), swept := c.swept || (p.Read? && current))
  }

  // ----- one restore of the attachments -----

  /** The loop over the stored ids, up to its next await or past its end. */
  function NextTab(rest: seq<TabId>, current: bool): TPhase {
    if rest != [] then AtTab(rest) else if current then AtWrite else TStale
  }

  function TNext(p: TPhase, ans: Answer, current: bool): TPhase {
    match p
    case AtItems => if ans.Fails? then TFailed else if ans.Items? then NextTab(ans.ids, current) else p
    case AtTab(rest) =>
      if !ans.Found? || rest == [] then p else if !current then TStale else NextTab(rest[1..], current)
    case AtWrite => if ans.Fails? then TFailed else if current then TDone else AtWriteAgain
    case AtWriteAgain => if ans.Fails? then TFailed else TStale
    case _ => p
  }

  function TMem(p: TPhase, ans: Answer, current: bool, m: Mem): Mem {
    if current && p.AtTab? && p.rest != [] && ans.Found? && ans.yes then m.(entries := m.entries + {p.rest[0]}) else m
  }

  function ResumeAttached(c: Core, t: nat, ans: Answer): Core {
    if t >= |c.att.runs| then c
    else
      var p := c.att.runs[t];
      var current := c.att.Current(t);
      var next := TNext(p, ans, current);
      var att := if next.TFailed? && !p.TFailed? then c.att.Fail(t, TFailed) else c.att.At(t, next);
      c.(att := att, mem := TMem(p, ans, current, c.mem))
  }

  // ----- one attempt of the preamble -----

  function AAt(c: Core, a: nat, p: APhase): Core {
    if a < |c.pre.runs| then c.(pre := c.pre.At(a, c.pre.runs[a].(phase := p))) else c
  }

  function AFail(c: Core, a: nat): Core {
    AAt(c, a, AFailed).(pre := AAt(c, a, AFailed).pre.(memo := c.pre.memo.Evict(a)))
  }

  /** `attached.restore()` and the await of it. */
  function StartAttached(c: Core, a: nat): Core
    requires a < |c.pre.runs|
  {
    c.(att := c.att.Run(true, AtItems),
      pre := c.pre.At(a, c.pre.runs[a].(phase := AtAttached, attached := c.att.Shared())))
  }

  /** Where attempt `a` goes; it stays while the restore it awaits has not settled. */
  function ANext(c: Core, a: nat, ans: Answer): APhase
    requires a < |c.pre.runs|
  {
    var run := c.pre.runs[a];
    var current := c.pre.Current(a);
    match run.phase
    case AtSession =>
      if run.session >= |c.ses.runs| || !c.ses.runs[run.session].Settled() then AtSession
      else if c.ses.runs[run.session].SFailed? then AFailed
      else if current then AtAttached else AStale
    case AtAttached =>
      if run.attached >= |c.att.runs| || !c.att.runs[run.attached].Settled() then AtAttached
      else if c.att.runs[run.attached].TFailed? then AFailed
      else if current then AtDrop(DropChanges(c.mem)) else AStale
    case AtDrop(writes) => if writes && ans.Fails? then AFailed else if writes && !current then AtDropAgain else ADone
    case AtDropAgain => if ans.Fails? then AFailed else ADone
    case p => p
  }

  function ResumeAttempt(c: Core, a: nat, ans: Answer): Core {
    if a >= |c.pre.runs| || ANext(c, a, ans) == c.pre.runs[a].phase then c
    else
      var next := ANext(c, a, ans);
      if next.AFailed? then AFail(c, a)
      else if next.AtAttached? then StartAttached(c, a)
      else if next.AtDrop? then AAt(c, a, next).(mem := PoolDropped(c.mem))
      else AAt(c, a, next)
  }

  // ----- a command after the attempt it awaited settled -----

  predicate CanContinue(c: Core, i: nat) {
    && i < |c.cmds|
    && c.cmds[i].stage == Waiting
    && c.cmds[i].joined < |c.pre.runs|
    && c.pre.runs[c.cmds[i].joined].phase.Settled()
  }

  /** The rest of `prepare`, the failure check and the `expired` check of `run`. */
  function Continue(c: Core, i: nat): Core {
    if !CanContinue(c, i) then c
    else
      var cmd := c.cmds[i].(preamble := None);
      var refused := cmd.expired || c.pre.runs[cmd.joined].phase.AFailed?;
      c.(cmds := c.cmds[i := cmd.(stage := if refused then Over else Passed)])
  }

  // ----- all steps -----

  datatype Event =
    | Handling | WarmUp
    | SessionStep(r: nat, ans: Answer) | AttachedStep(t: nat, ans: Answer) | AttemptStep(a: nat, ans: Answer)
    | Continuing(i: nat) | Expiring(i: nat) | GivingUp(i: nat)

  function Step(c: Core, e: Event): Core {
    match e
    case Handling => Handle(c)
    case WarmUp => RestoreSession(c, false)
    case SessionStep(r, ans) => ResumeSession(c, r, ans)
    case AttachedStep(t, ans) => ResumeAttached(c, t, ans)
    case AttemptStep(a, ans) => ResumeAttempt(c, a, ans)
    case Continuing(i) => Continue(c, i)
    case Expiring(i) => Deadline(c, i)
    case GivingUp(i) => GiveUp(c, i)
  }

  // ----- the invariant -----

  /** Commands that joined attempt `a` and were not taken off its waiters. */
  ghost function Sharers(cmds: seq<Cmd>, a: nat): set<int> {
    set i | 0 <= i < |cmds| && cmds[i].joined == a && cmds[i].counted
  }

  ghost predicate CmdOk(pre: M.Layer<Attempt>, cmd: Cmd) {
    && cmd.joined < |pre.runs|
    && cmd.preamble == (if cmd.stage == Waiting then Some(cmd.joined) else None)
    && (cmd.gaveUp ==> cmd.expired)
    && (!cmd.counted ==> cmd.gaveUp)
    && (cmd.gaveUp && cmd.counted && cmd.stage == Waiting ==> pre.memo.promise != Some(cmd.joined))
    && (cmd.stage == Over ==> pre.runs[cmd.joined].phase.Settled())
    && (cmd.stage == Passed ==>
          cmd.counted && pre.memo.promise == Some(cmd.joined) && pre.runs[cmd.joined].phase.ADone?)
  }

  ghost predicate Cmds(pre: M.Layer<Attempt>, cmds: seq<Cmd>) {
    forall i :: 0 <= i < |cmds| ==> CmdOk(pre, cmds[i])
  }

  /** The waiter count is the number of sharers; an attempt out of the memo has none, unless it failed. */
  ghost predicate Counted(pre: M.Layer<Attempt>, cmds: seq<Cmd>) {
    && (pre.memo.promise.Some? ==> pre.memo.waiters == |Sharers(cmds, pre.memo.promise.value)| > 0)
    && (forall a :: 0 <= a < |pre.runs| && pre.memo.promise != Some(a) && !pre.runs[a].phase.AFailed? ==>
          Sharers(cmds, a) == {})
  }

  ghost predicate CurrentRunning(pre: M.Layer<Attempt>, restores: Option<nat>) {
    pre.memo.promise.Some? ==>
      && pre.memo.promise.value < |pre.runs|
      && restores == pre.memo.promise
      && !pre.runs[pre.memo.promise.value].phase.AStale?
      && !pre.runs[pre.memo.promise.value].phase.AFailed?
  }

  ghost predicate PreInv(pre: M.Layer<Attempt>, restores: Option<nat>, cmds: seq<Cmd>) {
    pre.Fenced() && CurrentRunning(pre, restores) && Cmds(pre, cmds) && Counted(pre, cmds)
  }

  /** The attempt in the memo, if there is one. */
  ghost function Current(pre: M.Layer<Attempt>): Option<Attempt> {
    if pre.memo.promise.Some? && pre.memo.promise.value < |pre.runs| then Some(pre.runs[pre.memo.promise.value])
      else None
  }

  /** The session restore the current attempt awaits or has behind it is in its own epoch, and is
      counted once while the attempt is blocked in it; a settled promise in the memo succeeded. */
  ghost predicate SesInv(now: Option<Attempt>, ses: M.Layer<SPhase>) {
    && ses.Fenced()
    && (ses.memo.promise.Some? ==>
          var r := ses.memo.promise.value;
          && !ses.runs[r].SFailed? && !ses.runs[r].SStale?
          && (!ses.runs[r].Settled() ==>
                ses.memo.waiters == if now.Some? && now.value.phase.AtSession? && now.value.session == r then 1 else 0))
    && (now.Some? ==>
          var r := now.value.session;
          && r < |ses.runs|
          && !ses.runs[r].SStale?
          && (!now.value.phase.AtSession? ==> ses.runs[r].SDone?)
          && (!ses.runs[r].SFailed? ==> ses.memo.promise == Some(r)))
  }

  /** The same for the restore of the attachments, from the time the attempt started it. */
  ghost predicate AttInv(now: Option<Attempt>, att: M.Layer<TPhase>) {
    && att.Fenced()
    && (forall t :: 0 <= t < |att.runs| && att.runs[t].AtWriteAgain? ==> !att.Current(t))
    && (att.memo.promise.Some? ==>
          var t := att.memo.promise.value;
          && !att.runs[t].TFailed? && !att.runs[t].TStale?
          && (!att.runs[t].Settled() ==>
                att.memo.waiters == if now.Some? && now.value.phase.AtAttached? && now.value.attached == t then 1
                  else 0))
    && (now.Some? && !now.value.phase.AtSession? ==>
          var t := now.value.attached;
          && t < |att.runs|
          && !att.runs[t].TStale?
          && (!now.value.phase.AtAttached? ==> att.runs[t].TDone?)
          && (!att.runs[t].TFailed? ==> att.memo.promise == Some(t)))
  }

  ghost predicate Inv(c: Core) {
    && PreInv(c.pre, c.restores, c.cmds)
    && SesInv(Current(c.pre), c.ses)
    && AttInv(Current(c.pre), c.att)
  }

  // ----- every step keeps it -----

  lemma RunFenced<P>(l: M.Layer<P>, tracked: bool, p: P)
    requires l.Fenced()
    ensures l.Run(tracked, p).Fenced()
  {
  }

  lemma SessionJoined(now: Option<Attempt>, ses: M.Layer<SPhase>, now': Option<Attempt>, p: SPhase)
    requires SesInv(now, ses) && now.None?
    requires now'.Some? && now'.value.phase.AtSession? && now'.value.session == ses.Shared()
    requires !p.Settled()
    ensures SesInv(now', ses.Run(true, p))
  {
    RunFenced(ses, true, p);
  }

  lemma SharersAdd(cmds: seq<Cmd>, a: nat)
    ensures var cmds' := cmds + [Cmd(a, Some(a), false, false, true, Waiting)];
      forall b :: Sharers(cmds', b) == Sharers(cmds, b) + if b == a then {|cmds|} else {}
  {
    var cmds' := cmds + [Cmd(a, Some(a), false, false, true, Waiting)];
    forall b ensures Sharers(cmds', b) == Sharers(cmds, b) + if b == a then {|cmds|} else {} {
    }
  }

  /** One more sharer, of the attempt held or of the one it starts. */
  lemma Joined(pre: M.Layer<Attempt>, restores: Option<nat>, cmds: seq<Cmd>, start: Attempt)
    requires PreInv(pre, restores, cmds)
    requires start.phase.AtSession?
    ensures var a := pre.Shared();
      PreInv(pre.Run(true, start), Some(a), cmds + [Cmd(a, Some(a), false, false, true, Waiting)])
  {
    var a := pre.Shared();
    var cmds' := cmds + [Cmd(a, Some(a), false, false, true, Waiting)];
    var pre' := pre.Run(true, start);
    SharersAdd(cmds, a);
    CardAdd(Sharers(cmds, a), |cmds|);
    RunFenced(pre, true, start);
    if pre.memo.promise.None? {
      assert Sharers(cmds, a) == {};
    }
    assert Cmds(pre', cmds');
  }

  lemma HandleKeeps(c: Core)
    requires Inv(c)
    ensures Inv(Handle(c))
  {
    var c' := Handle(c);
    Joined(c.pre, c.restores, c.cmds, Attempt(AtSession, c.ses.Shared(), 0));
    if c.pre.memo.promise.None? {
      SessionJoined(Current(c.pre), c.ses, Current(c'.pre), FirstSPhase(c.mem));
    }
  }

  lemma WarmUpKeeps(c: Core)
    requires Inv(c)
    ensures Inv(RestoreSession(c, false))
  {
    RunFenced(c.ses, false, FirstSPhase(c.mem));
  }

  lemma ContinueKeeps(c: Core, i: nat)
    requires Inv(c)
    ensures Inv(Continue(c, i))
  {
    if CanContinue(c, i) {
      var c' := Continue(c, i);
      forall a ensures Sharers(c'.cmds, a) == Sharers(c.cmds, a) {
      }
      if c'.cmds[i].stage == Passed {
        assert i in Sharers(c.cmds, c.cmds[i].joined);
      }
    }
  }

  lemma DeadlineKeeps(c: Core, i: nat)
    requires Inv(c)
    ensures Inv(Deadline(c, i))
  {
    var c' := Deadline(c, i);
    forall a ensures Sharers(c'.cmds, a) == Sharers(c.cmds, a) {
    }
  }

  lemma SharersRemove(cmds: seq<Cmd>, left: seq<Cmd>, i: nat)
    requires i < |cmds| && left == cmds[i := cmds[i].(gaveUp := true, counted := false)]
    ensures forall b :: Sharers(left, b) == if b == cmds[i].joined then Sharers(cmds, b) - {i} else Sharers(cmds, b)
  {
    forall b ensures Sharers(left, b) == if b == cmds[i].joined then Sharers(cmds, b) - {i} else Sharers(cmds, b) {
    }
  }

  /** Taking the last waiter off evicts; taking any other one off only counts down. */
  lemma AbandonPre(c: Core, i: nat)
    requires Inv(c) && i < |c.cmds| && c.cmds[i].expired && !c.cmds[i].gaveUp && WillCount(c, i)
    ensures var c' := GiveUp(c, i);
      && PreInv(c'.pre, c'.restores, c'.cmds)
      && c'.pre == c.pre.Abandon(c.cmds[i].joined)
      && Sharers(c'.cmds, c.cmds[i].joined) == Sharers(c.cmds, c.cmds[i].joined) - {i}
      && (c.pre.memo.AbandonEvicts(c.cmds[i].joined) <==> Sharers(c.cmds, c.cmds[i].joined) == {i})
  {
    var c' := GiveUp(c, i);
    var a := c.cmds[i].joined;
    SharersRemove(c.cmds, c'.cmds, i);
    CardRemove(Sharers(c.cmds, a), i);
    if Sharers(c.cmds, a) != {i} {
      var j :| j in Sharers(c.cmds, a) && j != i;
      CardSubset({i, j}, Sharers(c.cmds, a));
    }
    forall j | 0 <= j < |c'.cmds| ensures CmdOk(c'.pre, c'.cmds[j]) {
      assert CmdOk(c.pre, c.cmds[j]);
      if j != i && c.cmds[j].stage == Passed {
        assert j in Sharers(c'.cmds, a);
      }
    }
  }

  lemma SessionAbandoned(now: Option<Attempt>, ses: M.Layer<SPhase>)
    requires SesInv(now, ses) && now.Some? && now.value.phase.AtSession?
    ensures SesInv(None, ses.Abandon(now.value.session))
    ensures !ses.runs[now.value.session].Settled() ==> !ses.Abandon(now.value.session).Current(now.value.session)
  {
  }

  lemma AttachedAbandoned(now: Option<Attempt>, att: M.Layer<TPhase>)
    requires AttInv(now, att) && now.Some? && now.value.phase.AtAttached?
    ensures AttInv(None, att.Abandon(now.value.attached))
    ensures !att.runs[now.value.attached].Settled() ==> !att.Abandon(now.value.attached).Current(now.value.attached)
  {
  }

  lemma GiveUpKeeps(c: Core, i: nat)
    requires Inv(c)
    ensures Inv(GiveUp(c, i))
  {
    if i < |c.cmds| && c.cmds[i].expired && !c.cmds[i].gaveUp {
      var c' := GiveUp(c, i);
      if WillCount(c, i) {
        AbandonPre(c, i);
        var now := Current(c.pre);
        if c.pre.memo.AbandonEvicts(c.cmds[i].joined) {
          assert Current(c'.pre) == None;
          if now.value.phase.AtSession? {
            SessionAbandoned(now, c.ses);
          } else if now.value.phase.AtAttached? {
            AttachedAbandoned(now, c.att);
          }
        }
      } else {
        GiveUpUncounted(c, i);
      }
    }
  }

  /** Giving up an attempt that is not in the memo any more changes no count. */
  lemma GiveUpUncounted(c: Core, i: nat)
    requires Inv(c) && i < |c.cmds| && c.cmds[i].expired && !c.cmds[i].gaveUp && !WillCount(c, i)
    ensures Inv(GiveUp(c, i))
  {
    var c' := GiveUp(c, i);
    assert c.cmds[i].preamble.None? || c.pre.Abandon(c.cmds[i].preamble.value) == c.pre;
    forall b ensures Sharers(c'.cmds, b) == Sharers(c.cmds, b) {
    }
    assert PreInv(c'.pre, c'.restores, c'.cmds);
  }

  lemma SessionStepKeeps(c: Core, r: nat, ans: Answer)
    requires Inv(c)
    ensures Inv(ResumeSession(c, r, ans))
  {
    if r < |c.ses.runs| {
      var p := c.ses.runs[r];
      var next := SNext(p, ans, c.ses.Current(r));
      if p.Settled() {
        assert c.ses.At(r, next) == c.ses;
      } else if next.SFailed? {
        SFailKeeps(Current(c.pre), c.ses, r);
      } else {
        SAtKeeps(Current(c.pre), c.ses, r, next);
      }
    }
  }

  lemma SAtKeeps(now: Option<Attempt>, ses: M.Layer<SPhase>, r: nat, p: SPhase)
    requires SesInv(now, ses) && r < |ses.runs| && !ses.runs[r].Settled()
    requires !p.SFailed? && (p.SStale? ==> !ses.Current(r))
    ensures SesInv(now, ses.At(r, p))
  {
  }

  lemma SFailKeeps(now: Option<Attempt>, ses: M.Layer<SPhase>, r: nat)
    requires SesInv(now, ses) && r < |ses.runs| && !ses.runs[r].Settled()
    ensures SesInv(now, ses.Fail(r, SFailed))
  {
  }

  lemma AttachedStepKeeps(c: Core, t: nat, ans: Answer)
    requires Inv(c)
    ensures Inv(ResumeAttached(c, t, ans))
  {
    if t < |c.att.runs| {
      var p := c.att.runs[t];
      var next := TNext(p, ans, c.att.Current(t));
      if p.Settled() {
        assert c.att.At(t, next) == c.att;
      } else if next.TFailed? {
        TFailKeeps(Current(c.pre), c.att, t);
      } else {
        TAtKeeps(Current(c.pre), c.att, t, next);
      }
    }
  }

  lemma TAtKeeps(now: Option<Attempt>, att: M.Layer<TPhase>, t: nat, p: TPhase)
    requires AttInv(now, att) && t < |att.runs| && !att.runs[t].Settled()
    requires !p.TFailed? && (p.TStale? || p.AtWriteAgain? ==> !att.Current(t))
    ensures AttInv(now, att.At(t, p))
  {
  }

  lemma TFailKeeps(now: Option<Attempt>, att: M.Layer<TPhase>, t: nat)
    requires AttInv(now, att) && t < |att.runs| && !att.runs[t].Settled()
    ensures AttInv(now, att.Fail(t, TFailed))
  {
  }

  /** Moving attempt `a` on, when it does not settle or settles as its epoch says. */
  lemma PhaseKeeps(pre: M.Layer<Attempt>, restores: Option<nat>, cmds: seq<Cmd>, a: nat, run: Attempt)
    requires PreInv(pre, restores, cmds) && a < |pre.runs| && !pre.runs[a].phase.Settled()
    requires !run.phase.AFailed? && (run.phase.AStale? ==> !pre.Current(a))
    ensures PreInv(pre.At(a, run), restores, cmds)
  {
    var pre' := pre.At(a, run);
    forall j | 0 <= j < |cmds| ensures CmdOk(pre', cmds[j]) {
      assert CmdOk(pre, cmds[j]);
    }
  }

  lemma AttemptFails(c: Core, a: nat)
    requires Inv(c) && a < |c.pre.runs| && !c.pre.runs[a].phase.Settled()
    requires c.pre.runs[a].phase.AtSession? ==>
      c.pre.runs[a].session < |c.ses.runs| && c.ses.runs[c.pre.runs[a].session].Settled()
    requires c.pre.runs[a].phase.AtAttached? ==>
      c.pre.runs[a].attached < |c.att.runs| && c.att.runs[c.pre.runs[a].attached].Settled()
    ensures Inv(AFail(c, a))
  {
    var c' := AFail(c, a);
    forall j | 0 <= j < |c.cmds| ensures CmdOk(c'.pre, c.cmds[j]) {
      assert CmdOk(c.pre, c.cmds[j]);
    }
    assert PreInv(c'.pre, c'.restores, c'.cmds);
  }

  /** Moving an attempt on, or out of the race because it is stale, leaves the restores well counted. */
  lemma MovedOn(c: Core, a: nat, p: APhase)
    requires Inv(c) && a < |c.pre.runs| && !c.pre.runs[a].phase.Settled()
    requires !p.AFailed? && !p.AtSession? && !p.AtAttached? && (p.AStale? ==> !c.pre.Current(a))
    requires var run := c.pre.runs[a]; c.pre.Current(a) ==>
      !run.phase.AtSession? && (run.phase.AtAttached? ==>
        run.attached < |c.att.runs| && c.att.runs[run.attached].TDone?)
    ensures Inv(AAt(c, a, p))
  {
    var c' := AAt(c, a, p);
    PhaseKeeps(c.pre, c.restores, c.cmds, a, c'.pre.runs[a]);
    assert !c.pre.Current(a) ==> Current(c'.pre) == Current(c.pre);
    assert SesInv(Current(c'.pre), c.ses);
    assert AttInv(Current(c'.pre), c.att);
  }

  lemma AttachedStarted(c: Core, a: nat)
    requires Inv(c) && a < |c.pre.runs| && c.pre.runs[a].phase.AtSession? && c.pre.Current(a)
    requires c.pre.runs[a].session < |c.ses.runs| && c.ses.runs[c.pre.runs[a].session].SDone?
    ensures Inv(StartAttached(c, a))
  {
    var c' := StartAttached(c, a);
    PhaseKeeps(c.pre, c.restores, c.cmds, a, c'.pre.runs[a]);
    assert Current(c'.pre) == Some(c'.pre.runs[a]);
    assert SesInv(Current(c'.pre), c.ses);
    RunFenced(c.att, true, AtItems);
    assert AttInv(Current(c'.pre), c'.att);
  }

  lemma AttemptStepKeeps(c: Core, a: nat, ans: Answer)
    requires Inv(c)
    ensures Inv(ResumeAttempt(c, a, ans))
  {
    if a < |c.pre.runs| && ANext(c, a, ans) != c.pre.runs[a].phase {
      var next := ANext(c, a, ans);
      if next.AFailed? {
        AttemptFails(c, a);
      } else if next.AtAttached? {
        AttachedStarted(c, a);
      } else {
        MovedOn(c, a, next);
        assert Inv(AAt(c, a, next));
      }
    }
  }

  lemma StepKeeps(c: Core, e: Event)
    requires Inv(c)
    ensures Inv(Step(c, e))
  {
    match e
    case Handling => HandleKeeps(c);
    case WarmUp => WarmUpKeeps(c);
    case SessionStep(r, ans) => SessionStepKeeps(c, r, ans);
    case AttachedStep(t, ans) => AttachedStepKeeps(c, t, ans);
    case AttemptStep(a, ans) => AttemptStepKeeps(c, a, ans);
    case Continuing(i) => ContinueKeeps(c, i);
    case Expiring(i) => DeadlineKeeps(c, i);
    case GivingUp(i) => GiveUpKeeps(c, i);
  }

  // ----- every run -----

  function Steps(c: Core, es: seq<Event>): Core
    decreases |es|
  {
    if es == [] then c else Step(Steps(c, es[..|es| - 1]), es[|es| - 1])
  }

  lemma {:induction false} RunKeeps(c: Core, es: seq<Event>)
    requires Inv(c)
    ensures Inv(Steps(c, es))
    decreases |es|
  {
    if es != [] {
      RunKeeps(c, es[..|es| - 1]);
      StepKeeps(Steps(c, es[..|es| - 1]), es[|es| - 1]);
    }
  }

  /** The attempt finished both restores and the pool drop, and everything is still in its epoch. */
  predicate Prepared(c: Core, a: nat) {
    && a < |c.pre.runs| && c.pre.runs[a].phase.ADone? && c.pre.Current(a)
    && var run := c.pre.runs[a];
    && run.session < |c.ses.runs| && c.ses.runs[run.session].SDone? && c.ses.Current(run.session)
    && run.attached < |c.att.runs| && c.att.runs[run.attached].TDone? && c.att.Current(run.attached)
  }

  /** No handler runs on an unfinished preamble: in every run, a command that got past `prepare`
      awaited an attempt that restored, attached and dropped inside its own epoch. A command that
      awaited a stale attempt, which resolves like any other, never gets there. */
  lemma {:induction false} NoHandlerOnUnfinishedPreamble(es: seq<Event>, i: nat)
    requires i < |Steps(INIT, es).cmds|
    requires Steps(INIT, es).cmds[i].stage == Passed
    ensures Prepared(Steps(INIT, es), Steps(INIT, es).cmds[i].joined)
  {
    RunKeeps(INIT, es);
  }

  /** Nothing was started or evicted, and memory is as it was. */
  ghost predicate Unmoved(c: Core, c': Core) {
    && c'.mem == c.mem
    && c'.pre.memo.promise == c.pre.memo.promise && |c'.pre.runs| == |c.pre.runs|
    && c'.ses.memo.promise == c.ses.memo.promise && |c'.ses.runs| == |c.ses.runs|
    && c'.att.memo.promise == c.att.memo.promise && |c'.att.runs| == |c.att.runs|
  }

  /** From the first handler on, no step starts, abandons or fails an attempt or a restore that
      matters: the three promises stay, and memory is never written by the preamble again. */
  lemma AfterPassing(c: Core, e: Event, i: nat)
    requires Inv(c) && i < |c.cmds| && c.cmds[i].stage == Passed
    ensures var c' := Step(c, e); Unmoved(c, c') && i < |c'.cmds| && c'.cmds[i].stage == Passed
  {
    RestoresAreOver(c, i);
    match e
    case GivingUp(j) => PassedStaysCounted(c, i, j);
    case SessionStep(r, ans) => RestoreStepsAfterPassing(c, i, r, ans);
    case AttachedStep(t, ans) => RestoreStepsAfterPassing(c, i, t, ans);
    case AttemptStep(b, ans) => AttemptStepAfterPassing(c, i, b, ans);
    case Handling =>
    case WarmUp =>
    case Continuing(j) =>
    case Expiring(j) =>
  }

  lemma RestoreStepsAfterPassing(c: Core, i: nat, id: nat, ans: Answer)
    requires Inv(c) && i < |c.cmds| && c.cmds[i].stage == Passed
    ensures Unmoved(c, ResumeSession(c, id, ans)) && Unmoved(c, ResumeAttached(c, id, ans))
  {
    RestoresAreOver(c, i);
  }

  lemma AttemptStepAfterPassing(c: Core, i: nat, b: nat, ans: Answer)
    requires Inv(c) && i < |c.cmds| && c.cmds[i].stage == Passed
    ensures Unmoved(c, ResumeAttempt(c, b, ans)) && ResumeAttempt(c, b, ans).cmds == c.cmds
  {
    assert CmdOk(c.pre, c.cmds[i]);
    if b == c.cmds[i].joined {
      assert ANext(c, b, ans) == ADone;
    } else if b < |c.pre.runs| {
      assert !c.pre.Current(b);
      StaleAttempt(c, b, ans);
    }
  }

  /** Once a command passed, every restore in a memo has settled. */
  lemma RestoresAreOver(c: Core, i: nat)
    requires Inv(c) && i < |c.cmds| && c.cmds[i].stage == Passed
    ensures c.ses.memo.promise.Some? && c.ses.runs[c.ses.memo.promise.value].SDone?
    ensures c.att.memo.promise.Some? && c.att.runs[c.att.memo.promise.value].TDone?
    ensures forall r :: 0 <= r < |c.ses.runs| && c.ses.Current(r) ==> c.ses.runs[r].SDone?
    ensures forall t :: 0 <= t < |c.att.runs| && c.att.Current(t) ==> c.att.runs[t].TDone?
  {
    assert CmdOk(c.pre, c.cmds[i]);
    assert Current(c.pre) == Some(c.pre.runs[c.cmds[i].joined]);
  }

  lemma PassedStaysCounted(c: Core, i: nat, j: nat)
    requires Inv(c) && i < |c.cmds| && c.cmds[i].stage == Passed
    ensures var c' := GiveUp(c, j);
      && i < |c'.cmds| && c'.cmds[i].stage == Passed
      && c'.ses == c.ses && c'.att == c.att && c'.mem == c.mem
      && c'.pre.memo.promise == c.pre.memo.promise && c'.pre.runs == c.pre.runs
  {
    assert CmdOk(c.pre, c.cmds[i]);
    assert i in Sharers(c.cmds, c.cmds[i].joined);
    if j < |c.cmds| && c.cmds[j].expired && !c.cmds[j].gaveUp && WillCount(c, j) {
      assert CmdOk(c.pre, c.cmds[j]);
      AbandonPre(c, j);
      assert i != j;
    }
  }

  /** The memo, the epochs and every other attempt of the layer are as they were. */
  ghost predicate OnlyMoves<P>(l: M.Layer<P>, l': M.Layer<P>, id: nat) {
    && l'.memo == l.memo && l'.epochs == l.epochs && |l'.runs| == |l.runs|
    && forall j :: 0 <= j < |l.runs| && j != id ==> l'.runs[j] == l.runs[j]
  }

  /** A stale attempt or restore changes neither memory nor any other attempt or restore. */
  lemma StaleIsHarmless(c: Core, id: nat, ans: Answer)
    requires Inv(c)
    ensures !c.ses.Current(id) ==>
      var c' := ResumeSession(c, id, ans); c' == c.(ses := c'.ses) && OnlyMoves(c.ses, c'.ses, id)
    ensures !c.att.Current(id) ==>
      var c' := ResumeAttached(c, id, ans); c' == c.(att := c'.att) && OnlyMoves(c.att, c'.att, id)
    ensures !c.pre.Current(id) ==>
      var c' := ResumeAttempt(c, id, ans); c' == c.(pre := c'.pre) && OnlyMoves(c.pre, c'.pre, id)
  {
    if !c.ses.Current(id) { StaleSession(c, id, ans); }
    if !c.att.Current(id) { StaleAttached(c, id, ans); }
    if !c.pre.Current(id) { StaleAttempt(c, id, ans); }
  }

  lemma StaleSession(c: Core, r: nat, ans: Answer)
    requires c.ses.Fenced() && !c.ses.Current(r)
    ensures var c' := ResumeSession(c, r, ans); c' == c.(ses := c'.ses) && OnlyMoves(c.ses, c'.ses, r)
  {
    assert r < |c.ses.runs| ==> c.ses.memo.Evict(r) == c.ses.memo;
  }

  lemma StaleAttached(c: Core, t: nat, ans: Answer)
    requires c.att.Fenced() && !c.att.Current(t)
    ensures var c' := ResumeAttached(c, t, ans); c' == c.(att := c'.att) && OnlyMoves(c.att, c'.att, t)
  {
    assert t < |c.att.runs| ==> c.att.memo.Evict(t) == c.att.memo;
  }

  lemma StaleAttempt(c: Core, a: nat, ans: Answer)
    requires c.pre.Fenced() && !c.pre.Current(a)
    ensures var c' := ResumeAttempt(c, a, ans); c' == c.(pre := c'.pre) && OnlyMoves(c.pre, c'.pre, a)
  {
    if a < |c.pre.runs| {
      assert c.pre.memo.Evict(a) == c.pre.memo;
    }
  }

  /** Commands that still wait for attempt `a`. */
  ghost predicate Waits(c: Core, i: nat, a: nat) {
    i < |c.cmds| && c.cmds[i].stage == Waiting && c.cmds[i].joined == a && !c.cmds[i].gaveUp
  }

  /** Attempt `run` is blocked in a session restore that has not settled. */
  predicate SessionPending(c: Core, run: Attempt) {
    run.phase.AtSession? && run.session < |c.ses.runs| && !c.ses.runs[run.session].Settled()
  }

  predicate AttachedPending(c: Core, run: Attempt) {
    run.phase.AtAttached? && run.attached < |c.att.runs| && !c.att.runs[run.attached].Settled()
  }

  /** While one command waits, its unsettled attempt and the unsettled restore that blocks it are kept. */
  lemma NotEvictedWhileWaiting(c: Core, i: nat)
    requires Inv(c) && i < |c.cmds| && Waits(c, i, c.cmds[i].joined)
    ensures var a := c.cmds[i].joined; var run := c.pre.runs[a];
      && (!run.phase.AFailed? ==> c.pre.Current(a))
      && (SessionPending(c, run) ==> c.ses.Current(run.session))
      && (AttachedPending(c, run) ==> c.att.Current(run.attached))
  {
    assert i in Sharers(c.cmds, c.cmds[i].joined);
  }

  /** Giving up takes effect exactly when nobody else waits. Then the attempt and the unsettled
      restore it is blocked in are both evicted, so the next command starts both afresh;
      otherwise neither layer of restores is touched and the attempt stays in its epoch. */
  lemma AbandonmentIsComplete(c: Core, i: nat)
    requires Inv(c) && i < |c.cmds| && Waits(c, i, c.cmds[i].joined) && c.cmds[i].expired
    requires !c.pre.runs[c.cmds[i].joined].phase.Settled()
    ensures var a := c.cmds[i].joined; var run := c.pre.runs[a]; var c' := GiveUp(c, i);
      && ((forall j: nat :: Waits(c, j, a) ==> j == i) <==> !c'.pre.Current(a))
      && (!c'.pre.Current(a) ==>
            && c'.pre.memo.promise.None?
            && (SessionPending(c, run) ==> !c'.ses.Current(run.session) && c'.ses.memo.promise.None?)
            && (AttachedPending(c, run) ==> !c'.att.Current(run.attached) && c'.att.memo.promise.None?)
            && Handle(c').pre.memo.promise == Some(|c.pre.runs|)
            && (SessionPending(c, run) ==> Handle(c').pre.runs[|c.pre.runs|].session == |c.ses.runs|))
      && (c'.pre.Current(a) ==> c'.ses == c.ses && c'.att == c.att)
  {
    var a := c.cmds[i].joined;
    var c' := GiveUp(c, i);
    var run := c.pre.runs[a];
    NotEvictedWhileWaiting(c, i);
    AbandonPre(c, i);
    forall j: nat ensures Waits(c, j, a) <==> j in Sharers(c.cmds, a) {
      if j in Sharers(c.cmds, a) {
        assert CmdOk(c.pre, c.cmds[j]);
      }
    }
    if run.phase.AtSession? {
      SessionAbandoned(Some(run), c.ses);
    } else if run.phase.AtAttached? {
      AttachedAbandoned(Some(run), c.att);
    }
  }
}

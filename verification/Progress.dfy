/**
 Nobody waits for nothing: every restore, attempt and handler moves on with each answer it gets, and a
 command whose preamble has not failed can always get through it (extension/src/dispatch.ts, session.ts,
 attached.ts, handlers/).
 */
module Progress {
  import opened Base
  import opened Tabs
  import opened Preamble
  import opened Pool
  import opened Handlers
  import M = Memo

  // ----- each answer moves what waits for it -----

  /** How far a restore or an attempt has to go; the second number counts the rounds of a loop. */
  datatype Rank = Rank(left: nat, rounds: nat)

  predicate Less(a: Rank, b: Rank) {
    a.left < b.left || (a.left == b.left && a.rounds < b.rounds)
  }

  function SessionRank(p: SPhase): Rank {
    match p
    case AtStorage => Rank(7, 0)
    case AtWindow(_) => Rank(6, 0)
    case AtTrim(_, kept) => Rank(5, |kept|)
    case AtClear => Rank(4, 0)
    case AtPersist => Rank(4, 0)
    case AtClearAgain => Rank(3, 0)
    case AtPersistAgain => Rank(3, 0)
    case Read => Rank(2, 0)
    case AtSweep => Rank(1, 0)
    case _ => Rank(0, 0)
  }

  function AttachedRank(p: TPhase): Rank {
    match p
    case AtItems => Rank(4, 0)
    case AtTab(rest) => Rank(3, |rest|)
    case AtWrite => Rank(2, 0)
    case AtWriteAgain => Rank(1, 0)
    case _ => Rank(0, 0)
  }

  /** The answers a session restore at this point can get. */
  predicate AnswersSession(p: SPhase, ans: Answer) {
    match p
    case AtStorage => ans.Fails? || ans.Item?
    case AtWindow(_) => ans.Window?
    case AtTrim(_, _) => ans.Done?
    case _ => true
  }

  predicate AnswersAttached(p: TPhase, ans: Answer) {
    match p
    case AtItems => ans.Fails? || ans.Items?
    case AtTab(rest) => ans.Found? && rest != []
    case _ => true
  }

  /** Every answer takes a restore further, in its epoch or out of it, until it has settled. */
  lemma AnswersMoveRestores(p: SPhase, q: TPhase, ans: Answer, current: bool)
    ensures !p.Settled() && AnswersSession(p, ans) && (p.AtTrim? ==> p.kept != []) ==>
      Less(SessionRank(SNext(p, ans, current)), SessionRank(p))
    ensures !q.Settled() && AnswersAttached(q, ans) ==> Less(AttachedRank(TNext(q, ans, current)), AttachedRank(q))
    ensures p.Settled() ==> SNext(p, ans, current) == p
    ensures q.Settled() ==> TNext(q, ans, current) == q
  {
  }

  function AttemptRank(p: APhase): nat {
    match p
    case AtSession => 4
    case AtAttached => 3
    case AtDrop(_) => 2
    case AtDropAgain => 1
    case _ => 0
  }

  /** An attempt moves on once the restore it awaits has settled: to failure if that failed, to its own end
      if its epoch is over, and to its next stage otherwise. */
  lemma SettledRestoresMoveAttempts(c: Core, a: nat, ans: Answer)
    requires a < |c.pre.runs| && !c.pre.runs[a].phase.Settled()
    ensures var run := c.pre.runs[a]; var next := ANext(c, a, ans);
      && (run.phase.AtSession? && run.session < |c.ses.runs| && c.ses.runs[run.session].Settled() ==>
            next == if c.ses.runs[run.session].SFailed? then AFailed
                    else if c.pre.Current(a) then AtAttached else AStale)
      && (run.phase.AtAttached? && run.attached < |c.att.runs| && c.att.runs[run.attached].Settled() ==>
            next == if c.att.runs[run.attached].TFailed? then AFailed
                    else if c.pre.Current(a) then AtDrop(DropChanges(c.mem)) else AStale)
      && (run.phase.AtDrop? || run.phase.AtDropAgain? ==> AttemptRank(next) < AttemptRank(run.phase))
  {
  }

  /** A command whose attempt has settled goes past `prepare` unless the attempt failed or its deadline
      fired: then it is over. */
  lemma SettledAttemptsLetCommandsGo(c: Core, i: nat)
    requires Inv(c) && CanContinue(c, i)
    ensures var n := Continue(c, i);
      && |n.cmds| == |c.cmds|
      && n.cmds[i].stage == (if c.cmds[i].expired || c.pre.runs[c.cmds[i].joined].phase.AFailed? then Over else Passed)
      && (forall j :: 0 <= j < |c.cmds| && j != i ==> n.cmds[j] == c.cmds[j])
  {
  }

  /** A deadline marks its command and no other, whatever it is at. */
  lemma DeadlinesMark(c: Core, i: nat)
    requires i < |c.cmds|
    ensures Preamble.Step(c, Expiring(i)) == c.(cmds := c.cmds[i := c.cmds[i].(expired := true)])
  {
  }

  /** A new command waits for the attempt there is, or for one of its own, whose session restore is the one
      there is or its own; the page's own restore at startup is nobody's to wait for. */
  lemma CommandsJoin(c: Core)
    requires Inv(c)
    ensures var n := Preamble.Step(c, Handling); var a := c.pre.Shared(); var i := |c.cmds|;
      && |n.cmds| == i + 1 && n.cmds[..i] == c.cmds && n.cmds[i] == Cmd(a, Some(a), false, false, true, Waiting)
      && n.pre.memo.promise == Some(a) && a < |n.pre.runs|
      && (c.pre.memo.promise.Some? ==> n.pre.runs == c.pre.runs && n.ses == c.ses)
      && (c.pre.memo.promise.None? ==>
            && n.pre.runs == c.pre.runs + [Attempt(AtSession, c.ses.Shared(), 0)] && n.restores == Some(a)
            && n.ses.memo.promise == Some(c.ses.Shared()))
    ensures var n := Preamble.Step(c, WarmUp);
      && n == c.(ses := n.ses) && n.ses.memo.promise == Some(c.ses.Shared())
      && (c.ses.memo.promise.Some? ==> n == c)
      && (c.ses.memo.promise.None? ==> n.ses.memo.waiters == 0 && n.ses.runs == c.ses.runs + [FirstSPhase(c.mem)])
  {
  }

  // ----- the way through -----

  lemma {:induction false} StepsAdd(c: Core, es: seq<Preamble.Event>, more: seq<Preamble.Event>)
    ensures Preamble.Steps(c, es + more) == Preamble.Steps(Preamble.Steps(c, es), more)
    decreases |more|
  {
    if more == [] {
      assert es + more == es;
    } else {
      assert (es + more)[..|es + more| - 1] == es + more[..|more| - 1];
      StepsAdd(c, es, more[..|more| - 1]);
    }
  }

  lemma StepsFrom(c: Core, e: Preamble.Event, more: seq<Preamble.Event>)
    ensures Preamble.Steps(c, [e] + more) == Preamble.Steps(Preamble.Step(c, e), more)
  {
    StepsAdd(c, [e], more);
    assert [e][..0] == [];
    assert Preamble.Steps(c, []) == c && Preamble.Steps(c, [e]) == Preamble.Step(c, e);
  }

  /** The layers and the commands, apart from one restore and from memory. */
  predicate OnlySession(c: Core, n: Core, r: nat) {
    && n.pre == c.pre && n.att == c.att && n.cmds == c.cmds && n.restores == c.restores
    && n.ses.memo == c.ses.memo && n.ses.epochs == c.ses.epochs && |n.ses.runs| == |c.ses.runs|
    && forall q :: 0 <= q < |c.ses.runs| && q != r ==> n.ses.runs[q] == c.ses.runs[q]
  }

  predicate OnlyAttached(c: Core, n: Core, t: nat) {
    && n.pre == c.pre && n.ses == c.ses && n.cmds == c.cmds && n.restores == c.restores
    && n.att.memo == c.att.memo && n.att.epochs == c.att.epochs && |n.att.runs| == |c.att.runs|
    && forall q :: 0 <= q < |c.att.runs| && q != t ==> n.att.runs[q] == c.att.runs[q]
  }

  /** An answer with which nothing is restored and nothing fails. */
  function PlainAnswer(p: SPhase): Answer {
    match p
    case AtStorage => Item(None)
    case AtWindow(_) => Window(None)
    case _ => Done
  }

  function PlainItems(p: TPhase): Answer {
    match p
    case AtItems => Items([])
    case AtTab(_) => Found(false)
    case _ => Done
  }

  lemma PlainMoves(p: SPhase)
    requires !p.Settled()
    ensures var n := SNext(p, PlainAnswer(p), true);
      Less(SessionRank(n), SessionRank(p)) && !n.SFailed? && !n.SStale?
  {
  }

  lemma PlainItemsMove(p: TPhase)
    requires !p.Settled() && (p.AtTab? ==> p.rest != []) && !p.AtWriteAgain?
    ensures var n := TNext(p, PlainItems(p), true);
      Less(AttachedRank(n), AttachedRank(p)) && !n.TFailed? && !n.TStale? && (n.AtTab? ==> n.rest != [])
        && !n.AtWriteAgain?
  {
  }

  /** A session restore in its epoch can always come to its end. */
  lemma {:induction false} SessionsCanFinish(c: Core, r: nat) returns (es: seq<Preamble.Event>)
    requires Inv(c) && r < |c.ses.runs| && c.ses.Current(r) && !c.ses.runs[r].SFailed? && !c.ses.runs[r].SStale?
    ensures var n := Preamble.Steps(c, es); Inv(n) && OnlySession(c, n, r) && n.ses.runs[r].SDone?
    decreases SessionRank(c.ses.runs[r]).left, SessionRank(c.ses.runs[r]).rounds
  {
    var p := c.ses.runs[r];
    if p.SDone? {
      es := [];
    } else {
      var e := SessionStep(r, PlainAnswer(p));
      PlainMoves(p);
      PlainStep(c, r);
      SessionStepKeeps(c, r, PlainAnswer(p));
      var rest := SessionsCanFinish(Preamble.Step(c, e), r);
      StepsFrom(c, e, rest);
      es := [e] + rest;
    }
  }

  lemma PlainStep(c: Core, r: nat)
    requires r < |c.ses.runs| && c.ses.Current(r) && !c.ses.runs[r].Settled()
    ensures var n := ResumeSession(c, r, PlainAnswer(c.ses.runs[r]));
      OnlySession(c, n, r) && n.ses.runs[r] == SNext(c.ses.runs[r], PlainAnswer(c.ses.runs[r]), true)
  {
    PlainMoves(c.ses.runs[r]);
  }

  predicate LooksUp(p: TPhase) {
    (p.AtTab? ==> p.rest != []) && !p.AtWriteAgain? && !p.TFailed? && !p.TStale?
  }

  lemma {:induction false} AttachmentsCanFinish(c: Core, t: nat) returns (es: seq<Preamble.Event>)
    requires Inv(c) && t < |c.att.runs| && c.att.Current(t) && LooksUp(c.att.runs[t])
    ensures var n := Preamble.Steps(c, es); Inv(n) && OnlyAttached(c, n, t) && n.att.runs[t].TDone?
    decreases AttachedRank(c.att.runs[t]).left, AttachedRank(c.att.runs[t]).rounds
  {
    var p := c.att.runs[t];
    if p.TDone? {
      es := [];
    } else {
      var e := AttachedStep(t, PlainItems(p));
      PlainItemsMove(p);
      PlainItemsStep(c, t);
      AttachedStepKeeps(c, t, PlainItems(p));
      var rest := AttachmentsCanFinish(Preamble.Step(c, e), t);
      StepsFrom(c, e, rest);
      es := [e] + rest;
    }
  }

  lemma PlainItemsStep(c: Core, t: nat)
    requires t < |c.att.runs| && c.att.Current(t) && !c.att.runs[t].Settled() && LooksUp(c.att.runs[t])
    ensures var n := ResumeAttached(c, t, PlainItems(c.att.runs[t]));
      OnlyAttached(c, n, t) && n.att.runs[t] == TNext(c.att.runs[t], PlainItems(c.att.runs[t]), true)
  {
    PlainItemsMove(c.att.runs[t]);
  }

  /** A restore of the attachments that looks a tab up has one to look up. */
  predicate LookingUp(att: M.Layer<TPhase>) {
    forall t :: 0 <= t < |att.runs| && att.runs[t].AtTab? ==> att.runs[t].rest != []
  }

  lemma LookingUpKeeps(c: Core, e: Preamble.Event)
    requires LookingUp(c.att)
    ensures LookingUp(Preamble.Step(c, e).att)
  {
    match e
    case AttachedStep(t, ans) =>
    case AttemptStep(a, ans) =>
    case GivingUp(i) =>
    case _ =>
  }

  lemma {:induction false} LookingUpHolds(es: seq<Preamble.Event>)
    ensures LookingUp(Preamble.Steps(INIT, es).att)
  {
    if es != [] {
      LookingUpHolds(es[..|es| - 1]);
      LookingUpKeeps(Preamble.Steps(INIT, es[..|es| - 1]), es[|es| - 1]);
    }
  }

  /** The attempt is in its epoch, and nothing it awaits has failed. */
  predicate Going(c: Core, a: nat) {
    && a < |c.pre.runs| && c.pre.Current(a)
    && var run := c.pre.runs[a];
    && !run.phase.AFailed? && !run.phase.AStale?
    && (run.phase.AtSession? ==> run.session < |c.ses.runs| && !c.ses.runs[run.session].SFailed?)
    && (run.phase.AtAttached? ==> run.attached < |c.att.runs| && !c.att.runs[run.attached].TFailed?)
  }

  predicate Finished(c: Core, n: Core, a: nat) {
    a < |n.pre.runs| && n.pre.runs[a].phase.ADone? && n.cmds == c.cmds
  }

  lemma DropFinishes(c: Core, a: nat)
    requires Inv(c) && Going(c, a) && (c.pre.runs[a].phase.AtDrop? || c.pre.runs[a].phase.AtDropAgain?)
    ensures Inv(Preamble.Step(c, AttemptStep(a, Done))) && Finished(c, Preamble.Step(c, AttemptStep(a, Done)), a)
  {
    AttemptStepKeeps(c, a, Done);
  }

  lemma AttachedMovesOn(c: Core, a: nat)
    requires Inv(c) && Going(c, a) && c.pre.runs[a].phase.AtAttached? && c.att.runs[c.pre.runs[a].attached].TDone?
    ensures var n := Preamble.Step(c, AttemptStep(a, Done));
      Inv(n) && Going(n, a) && n.pre.runs[a].phase.AtDrop? && n.cmds == c.cmds
  {
    AttemptStepKeeps(c, a, Done);
  }

  lemma SessionMovesOn(c: Core, a: nat)
    requires Inv(c) && LookingUp(c.att) && Going(c, a) && c.pre.runs[a].phase.AtSession?
      && c.ses.runs[c.pre.runs[a].session].SDone?
    ensures var n := Preamble.Step(c, AttemptStep(a, Done));
      Inv(n) && LookingUp(n.att) && Going(n, a) && n.pre.runs[a].phase.AtAttached? && n.cmds == c.cmds
  {
    AttemptStepKeeps(c, a, Done);
    LookingUpKeeps(c, AttemptStep(a, Done));
  }

  lemma AwaitedIsCurrent(c: Core, a: nat)
    requires Inv(c) && LookingUp(c.att) && Going(c, a)
    ensures var run := c.pre.runs[a];
      && (run.phase.AtSession? ==> c.ses.Current(run.session) && !c.ses.runs[run.session].SStale?)
      && (run.phase.AtAttached? ==> c.att.Current(run.attached) && LooksUp(c.att.runs[run.attached]))
  {
    assert Current(c.pre) == Some(c.pre.runs[a]);
  }

  lemma DropCanFinish(c: Core, a: nat) returns (es: seq<Preamble.Event>)
    requires Inv(c) && Going(c, a)
    requires c.pre.runs[a].phase.AtDrop? || c.pre.runs[a].phase.AtDropAgain? || c.pre.runs[a].phase.ADone?
    ensures Inv(Preamble.Steps(c, es)) && Finished(c, Preamble.Steps(c, es), a)
  {
    if c.pre.runs[a].phase.ADone? {
      es := [];
    } else {
      es := [AttemptStep(a, Done)];
      DropFinishes(c, a);
      StepsFrom(c, es[0], []);
      assert [es[0]] + [] == es;
    }
  }

  lemma AttachedCanFinish(c: Core, a: nat) returns (es: seq<Preamble.Event>)
    requires Inv(c) && LookingUp(c.att) && Going(c, a) && c.pre.runs[a].phase.AtAttached?
    ensures Inv(Preamble.Steps(c, es)) && Finished(c, Preamble.Steps(c, es), a)
  {
    AwaitedIsCurrent(c, a);
    var first := AttachmentsCanFinish(c, c.pre.runs[a].attached);
    var n := Preamble.Steps(c, first);
    AttachedMovesOn(n, a);
    var rest := DropCanFinish(Preamble.Step(n, AttemptStep(a, Done)), a);
    StepsFrom(n, AttemptStep(a, Done), rest);
    es := first + ([AttemptStep(a, Done)] + rest);
    StepsAdd(c, first, [AttemptStep(a, Done)] + rest);
  }

  /** An attempt of which nothing failed can always finish. */
  lemma AttemptsCanFinish(c: Core, a: nat) returns (es: seq<Preamble.Event>)
    requires Inv(c) && LookingUp(c.att) && Going(c, a)
    ensures Inv(Preamble.Steps(c, es)) && Finished(c, Preamble.Steps(c, es), a)
  {
    if c.pre.runs[a].phase.AtSession? {
      AwaitedIsCurrent(c, a);
      var first := SessionsCanFinish(c, c.pre.runs[a].session);
      var n := Preamble.Steps(c, first);
      SessionMovesOn(n, a);
      var rest := AttachedCanFinish(Preamble.Step(n, AttemptStep(a, Done)), a);
      StepsFrom(n, AttemptStep(a, Done), rest);
      es := first + ([AttemptStep(a, Done)] + rest);
      StepsAdd(c, first, [AttemptStep(a, Done)] + rest);
    } else if c.pre.runs[a].phase.AtAttached? {
      es := AttachedCanFinish(c, a);
    } else {
      es := DropCanFinish(c, a);
    }
  }

  /** From every reachable state, a command that waits, whose deadline has not fired and whose attempt has
      met no failure can get through the preamble: nobody holds it up for ever. */
  lemma {:induction false} CommandsCanGetThrough(es: seq<Preamble.Event>, i: nat) returns (more: seq<Preamble.Event>)
    requires var c := Preamble.Steps(INIT, es);
      i < |c.cmds| && c.cmds[i].stage == Waiting && !c.cmds[i].expired && Going(c, c.cmds[i].joined)
    ensures var n := Preamble.Steps(INIT, es + more); i < |n.cmds| && n.cmds[i].stage == Passed
  {
    var c := Preamble.Steps(INIT, es);
    Preamble.RunKeeps(INIT, es);
    LookingUpHolds(es);
    more := WayThrough(c, i);
    StepsAdd(INIT, es, more);
  }

  lemma WayThrough(c: Core, i: nat) returns (more: seq<Preamble.Event>)
    requires Inv(c) && LookingUp(c.att)
    requires i < |c.cmds| && c.cmds[i].stage == Waiting && !c.cmds[i].expired && Going(c, c.cmds[i].joined)
    ensures var n := Preamble.Steps(c, more); i < |n.cmds| && n.cmds[i].stage == Passed
  {
    var first := AttemptsCanFinish(c, c.cmds[i].joined);
    var n := Preamble.Steps(c, first);
    SettledAttemptsLetCommandsGo(n, i);
    more := first + [Continuing(i)];
    StepsAdd(c, first, [Continuing(i)]);
    StepsFrom(n, Continuing(i), []);
    assert [Continuing(i)] + [] == [Continuing(i)];
  }

  // ----- handlers -----

  function HandlerRank(p: HPhase): nat {
    match p
    case Queued => 8
    case CheckingWindow => 7
    case Clearing => 6
    case Evicting(_) => 5
    case Opening => 4
    case Creating(_) => 4
    case Opened(_, _, _, _) => 3
    case Created(_, _) => 3
    case Closing(_, _) => 3
    case Attaching(_) => 3
    case Leaving => 2
    case Left => 0
  }

  /** A command that passed is queued with its own plan behind everybody before it; the lock lets it in when
      its turn comes; and every answer, and the tab it asked for, takes it further. */
  lemma HandlersMoveOn(m: Mem, p: HPhase, e: Pool.Event, i: nat)
    requires Owns(e, i) && p != Left && p != Queued
    requires e.NewTab? ==> FreshTab(m, e, i) && (p.Creating? || p.Opening?)
    requires e.Answered? && (p.Creating? || p.Opening?) ==> !e.ok
    ensures HandlerRank(Next(m, p, e, i).1) < HandlerRank(p)
  {
  }

  lemma PassedCommandsQueue(s: State, i: nat, plan: Plan)
    requires PoolInv(s) && CanContinue(s.core, i)
    ensures var n := Pass(s, i, plan);
      if Preamble.Continue(s.core, i).cmds[i].stage == Passed && plan != Free
      then i in n.runs && n.runs == s.runs[i := Pool.Run(plan, s.lock.tail + 1, Queued)]
        && n.lock.tail == s.lock.tail + 1
      else n.runs == s.runs && n.lock == s.lock
  {
  }
}

/**
 Who answers a request (cli/internal/host/host.go): of the events that can end one - the extension's reply,
 its timer, a refused frame, its client's close - the first that comes while it is pending does, and what
 it leaves of the request.
 */
module Replies {
  import opened Base
  import opened Host

  // ----- one event -----

  /** What takes request `id` out of the table, if this event does. */
  function TakenBy(s: Server, e: Event, id: Id): Option<Winner>
    requires id in s.pending
  {
    match e
    case Claim(i) => if i == id then Some(ByReply(|s.tasks|)) else None
    case Expire(i) => if i == id && id in s.timers && s.timers[id].Firing? then Some(ByTimeout(|s.tasks|)) else None
    case Frame(c, tooLarge) =>
      if tooLarge && c == s.pending[id].conn && c < |s.conns| && s.conns[c].serve == Recorded(id)
      then Some(ByRefusal(|s.tasks|)) else None
    case Advance(k, _) =>
      if k < |s.tasks| && s.tasks[k].phase.Dropping? && s.tasks[k].conn == s.pending[id].conn
      then Some(ByDisconnect) else None
    case _ => None
  }

  /** The request as it was, in the table and with its client. */
  predicate Untouched(s: Server, n: Server, id: Id)
    requires id in s.pending
  {
    id in n.pending && n.pending[id].conn == s.pending[id].conn && id !in n.winner
  }

  /** The request has left the table, its client's set and its timer, and `w` is what took it. */
  predicate Ended(s: Server, n: Server, id: Id, w: Winner)
    requires id in s.pending
  {
    && id !in n.pending && id in n.winner && n.winner[id] == w
    && s.pending[id].conn < |n.conns| && id !in n.conns[s.pending[id].conn].ids
    && (s.pending[id].recorded && id in n.timers ==> !n.timers[id].Armed?)
  }

  lemma TakeEnds(s: Server, id: Id, w: Winner)
    requires Inv(s) && id in s.pending
    ensures Ended(s, Take(s, id, w), id, w) && s.pending[id].conn < |s.conns|
    ensures forall i :: i != id ==>
      (i in Take(s, id, w).pending <==> i in s.pending)
        && (i in s.pending ==> Take(s, id, w).pending[i] == s.pending[i])
    ensures forall i :: i != id ==>
      (i in Take(s, id, w).winner <==> i in s.winner) && (i in s.winner ==> Take(s, id, w).winner[i] == s.winner[i])
  {
    assert IdOk(s, id);
  }

  /** A reply to a pending request takes it: it is out of the table, of its client's set and of the armed
      timers, the reply is its winner, and one answer to its client starts; nothing else changes. A reply to
      any other id changes nothing at all. */
  lemma ReplyTakes(s: Server, id: Id)
    requires Inv(s)
    ensures var n := Step(s, Claim(id));
      if id !in s.pending then n == s
      else
        && Ended(s, n, id, ByReply(|s.tasks|))
        && n.tasks == s.tasks + [Task(s.pending[id].conn, Encoding, false, Some(id))]
        && OthersStay(s, n, id)
  {
    if id in s.pending {
      TakeEnds(s, id, ByReply(|s.tasks|));
      TakeLeavesOthers(s, id, ByReply(|s.tasks|));
    }
  }

  /** Every other request, and its timer, is as it was; so is every client but for its id set. */
  ghost predicate OthersStay(s: Server, n: Server, id: Id) {
    && n.owner == s.owner && n.closing == s.closing && |n.conns| == |s.conns|
    && (forall i :: i != id ==>
          (i in n.pending <==> i in s.pending) && (i in s.pending ==> n.pending[i] == s.pending[i]))
    && (forall i :: i != id ==> (i in n.timers <==> i in s.timers) && (i in s.timers ==> n.timers[i] == s.timers[i]))
    && (forall c :: 0 <= c < |s.conns| ==>
          n.conns[c].closed == s.conns[c].closed && n.conns[c].serve == s.conns[c].serve
            && n.conns[c].ids == s.conns[c].ids - {id})
  }

  lemma TakeLeavesOthers(s: Server, id: Id, w: Winner)
    requires Inv(s) && id in s.pending
    ensures OthersStay(s, Take(s, id, w), id)
  {
    assert IdOk(s, id);
    forall c: nat | c < |s.conns| && c != s.pending[id].conn ensures id !in s.conns[c].ids { assert ConnOk(s, c); }
  }

  /** A timer that fires takes its request if it is still pending, and answers it; if it is not, it only
      has run. */
  lemma TimeoutTakes(s: Server, id: Id)
    requires Inv(s) && id in s.timers && s.timers[id].Firing?
    ensures var n := Step(s, Expire(id));
      && id in n.timers && n.timers[id].Ran?
      && if id !in s.pending then n == s.(timers := s.timers[id := Ran])
         else
           && Ended(s, n, id, ByTimeout(|s.tasks|))
           && n.tasks == s.tasks + [Task(s.pending[id].conn, Encoding, false, Some(id))]
           && OthersStay(s, n, id)
  {
    ExpireIsWin(s, id);
    if id in s.pending {
      TakeEnds(s, id, ByTimeout(|s.tasks|));
      TakeLeavesOthers(s, id, ByTimeout(|s.tasks|));
      WonTimer(s, id);
    }
  }

  lemma WonTimer(s: Server, id: Id)
    requires Inv(s) && id in s.timers && s.timers[id].Firing? && id in s.pending
    ensures var won := Take(s, id, ByTimeout(|s.tasks|)); var n := Step(s, Expire(id));
      && n.pending == won.pending && n.winner == won.winner && n.conns == won.conns && n.owner == won.owner
      && n.closing == won.closing
      && n.timers == won.timers[id := Ran]
      && n.tasks == s.tasks + [Task(s.pending[id].conn, Encoding, false, Some(id))]
  {
    ExpireIsWin(s, id);
  }

  /** A frame that is too large takes the request it carries, if that is still pending, and the reader
      answers it before it reads on. */
  lemma RefusalTakes(s: Server, c: nat, id: Id)
    requires Inv(s) && c < |s.conns| && s.conns[c].serve == Recorded(id)
    ensures var n := Step(s, Frame(c, true));
      if id !in s.pending then n == At(s, c, Reading)
      else
        && Ended(s, n, id, ByRefusal(|s.tasks|))
        && n.tasks == s.tasks + [Task(c, Encoding, false, Some(id))]
        && n.conns[c].serve == Replying(|s.tasks|)
  {
    assert ConnOk(s, c);
    assert IdOk(s, id);
    if id in s.pending { TakeEnds(s, id, ByRefusal(|s.tasks|)); }
  }

  /** A close ends every pending request of its client, and of no other. */
  lemma CloseTakesAll(s: Server, k: nat, fails: bool)
    requires Inv(s) && k < |s.tasks| && s.tasks[k].phase.Dropping?
    ensures var c := s.tasks[k].conn; var n := Step(s, Advance(k, fails));
      && c < |s.conns| && |n.conns| == |s.conns| && n.conns[c].ids == {}
      && (forall id :: id in s.pending && s.pending[id].conn == c ==> Ended(s, n, id, ByDisconnect))
      && (forall id :: id in s.pending && s.pending[id].conn != c ==> id in n.pending && n.pending[id] == s.pending[id])
      && |n.tasks| == |s.tasks| && n.tasks[k].phase.Shutting?
  {
    assert TaskOk(s, k);
    DropEnds(s, s.tasks[k].conn);
  }

  lemma DropEnds(s: Server, c: nat)
    requires Inv(s) && c < |s.conns|
    ensures var n := Drop(s, c);
      && |n.conns| == |s.conns| && n.conns[c].ids == {} && n.tasks == s.tasks
      && (forall id :: id in s.pending && s.pending[id].conn == c ==> Ended(s, n, id, ByDisconnect))
      && (forall id :: id in s.pending && s.pending[id].conn != c ==>
            id in n.pending && n.pending[id] == s.pending[id] && id !in n.winner)
  {
    forall id | id in s.pending ensures id in s.conns[c].ids <==> s.pending[id].conn == c {
      assert IdOk(s, id);
      assert ConnOk(s, c);
    }
    forall id | id in s.pending ensures id !in s.winner { assert IdOk(s, id); }
  }

  // ----- every run -----

  /** One step, whatever it is: a pending request stays unless this event takes it, and then with the
      winner that the event is. */
  lemma StepTakes(s: Server, e: Event, id: Id)
    requires Inv(s) && id in s.pending
    ensures var n := Step(s, e); var w := TakenBy(s, e, id);
      if w.Some? then id !in n.pending && id in n.winner && n.winner[id] == w.value else Untouched(s, n, id)
  {
    assert IdOk(s, id);
    match e
    case Claim(i) => if i in s.pending { TakeEnds(s, i, ByReply(|s.tasks|)); }
    case Expire(i) => ExpireLeaves(s, i, id);
    case Frame(c, tooLarge) => FrameLeaves(s, c, tooLarge, id);
    case Advance(k, fails) => AdvanceLeaves(s, k, fails, id);
    case Register(c, i) => RegisterLeaves(s, c, i, id);
    case RecordStop(c) => RecordStopLeaves(s, c, id);
    case _ =>
      QuietStep(s, e);
      PlainLeaves(s, e, id);
  }

  lemma PlainLeaves(s: Server, e: Event, id: Id)
    requires id in s.pending
    requires e.Accept? || e.Shutdown? || e.Arm? || e.Refuse? || e.Hangup? || e.Fire? || e.Close? || e.Proceed?
    ensures Step(s, e).pending == s.pending && Step(s, e).winner == s.winner
  {
  }

  lemma RegisterLeaves(s: Server, c: nat, i: Id, id: Id)
    requires Inv(s) && id in s.pending
    ensures Untouched(s, DoRegister(s, c, i), id)
  {
    assert IdOk(s, id);
  }

  lemma RecordStopLeaves(s: Server, c: nat, id: Id)
    requires Inv(s) && id in s.pending
    ensures Untouched(s, DoRecordStop(s, c), id)
  {
    assert IdOk(s, id);
  }

  lemma ExpireLeaves(s: Server, i: Id, id: Id)
    requires Inv(s) && id in s.pending
    ensures var n := DoExpire(s, i); var w := TakenBy(s, Expire(i), id);
      if w.Some? then id !in n.pending && id in n.winner && n.winner[id] == w.value else Untouched(s, n, id)
  {
    assert IdOk(s, id);
    if i in s.timers && s.timers[i].Firing? {
      ExpireIsWin(s, i);
      if i in s.pending { TakeEnds(s, i, ByTimeout(|s.tasks|)); }
    }
  }

  lemma FrameLeaves(s: Server, c: nat, tooLarge: bool, id: Id)
    requires Inv(s) && id in s.pending
    ensures var n := DoFrame(s, c, tooLarge); var w := TakenBy(s, Frame(c, tooLarge), id);
      if w.Some? then id !in n.pending && id in n.winner && n.winner[id] == w.value else Untouched(s, n, id)
  {
    assert IdOk(s, id);
    if c < |s.conns| && s.conns[c].serve.Recorded? {
      var i := s.conns[c].serve.id;
      assert ConnOk(s, c);
      if i in s.pending {
        assert IdOk(s, i);
        TakeEnds(s, i, ByRefusal(|s.tasks|));
      }
    }
  }

  lemma AdvanceLeaves(s: Server, k: nat, fails: bool, id: Id)
    requires Inv(s) && id in s.pending
    ensures var n := DoAdvance(s, k, fails); var w := TakenBy(s, Advance(k, fails), id);
      if w.Some? then id !in n.pending && id in n.winner && n.winner[id] == w.value else Untouched(s, n, id)
  {
    assert IdOk(s, id);
    if k < |s.tasks| {
      assert TaskOk(s, k);
      if s.tasks[k].phase.Dropping? {
        DropEnds(s, s.tasks[k].conn);
      } else {
        WriteLeaves(s, k, fails);
      }
    }
  }

  lemma WriteLeaves(s: Server, k: nat, fails: bool)
    requires k < |s.tasks| && !s.tasks[k].phase.Dropping?
    ensures DoAdvance(s, k, fails).pending == s.pending && DoAdvance(s, k, fails).winner == s.winner
  {
    match s.tasks[k].phase
    case Shutting => ShutLeaves(s, k, fails);
    case Encoding =>
    case Writing =>
    case Done =>
  }

  lemma ShutLeaves(s: Server, k: nat, fails: bool)
    requires k < |s.tasks| && s.tasks[k].phase.Shutting?
    ensures var n := DoAdvance(s, k, fails); n.pending == s.pending && n.winner == s.winner && n.owner == s.owner
  {
  }

  /** The first event of the run that could take request `id` and found it pending. */
  function First(es: seq<Event>, id: Id): Option<Winner> {
    if es == [] then None
    else
      var before := First(es[..|es| - 1], id);
      var s := Steps(es[..|es| - 1]);
      if before.Some? then before else if id in s.pending then TakenBy(s, es[|es| - 1], id) else None
  }

  /** In every run the winner of a request is the first event that came for it while it was pending, and
      until one comes it is pending: no reply, timeout, refusal or close goes unheeded or counts twice. */
  lemma {:induction false} FirstEventWins(es: seq<Event>, id: Id)
    requires id in Steps(es).owner
    ensures var s := Steps(es);
      && (First(es, id).None? <==> id in s.pending)
      && (First(es, id).Some? ==> id in s.winner && s.winner[id] == First(es, id).value)
  {
    var before, e := es[..|es| - 1], es[|es| - 1];
    var s := Steps(before);
    RunKeeps(before);
    RunKeeps(es);
    assert IdOk(s, id) && IdOk(Steps(es), id);
    if id in s.owner {
      FirstEventWins(before, id);
      if id in s.pending {
        StepTakes(s, e, id);
      } else {
        RunAnswers(before);
        StepAnswers(s, e);
      }
    } else {
      NotYetForwarded(before, id);
      NewIsPending(s, e, id);
    }
  }

  lemma NewIsPending(s: Server, e: Event, id: Id)
    requires Inv(s) && id !in s.owner && id in Step(s, e).owner
    ensures id in Step(s, e).pending
  {
    OnlyForwardOwns(s, e);
  }

  lemma OnlyForwardOwns(s: Server, e: Event)
    ensures !e.Register? ==> Step(s, e).owner == s.owner
    ensures e.Register? ==>
      Step(s, e).owner == s.owner || (e.id in Step(s, e).pending && Step(s, e).owner == s.owner[e.id := e.c])
  {
    match e
    case Frame(c, tooLarge) => FrameOwns(s, c, tooLarge);
    case Advance(k, fails) => AdvanceOwns(s, k, fails);
    case RecordStop(c) => RecordStopOwns(s, c);
    case _ =>
  }

  lemma FrameOwns(s: Server, c: nat, tooLarge: bool)
    ensures DoFrame(s, c, tooLarge).owner == s.owner
  {
  }

  lemma RecordStopOwns(s: Server, c: nat)
    ensures DoRecordStop(s, c).owner == s.owner
  {
  }

  lemma AdvanceOwns(s: Server, k: nat, fails: bool)
    ensures DoAdvance(s, k, fails).owner == s.owner
  {
    if k < |s.tasks| && s.tasks[k].phase.Shutting? { ShutLeaves(s, k, fails); }
  }

  lemma {:induction false} NotYetForwarded(es: seq<Event>, id: Id)
    requires id !in Steps(es).owner
    ensures First(es, id).None?
  {
    if es != [] {
      var before := es[..|es| - 1];
      RunKeeps(before);
      assert IdOk(Steps(before), id);
      OnlyForwardOwns(Steps(before), es[|es| - 1]);
      NotYetForwarded(before, id);
    }
  }

  // ----- nobody waits for nothing -----

  /** A request that is forwarded undisturbed is in the table under its client, with its timer armed and
      its stop on record, and the reader goes on to the next line. */
  lemma ForwardGoesThrough(s: Server, c: nat, id: Id)
    requires Inv(s) && c < |s.conns| && s.conns[c].serve.Reading? && id !in s.owner
    ensures var n := Step(Step(Step(Step(s, Register(c, id)), Arm(c)), RecordStop(c)), Frame(c, false));
      && n.pending == s.pending[id := Request(c, true)] && n.timers == s.timers[id := Armed]
      && n.conns == s.conns[c := s.conns[c].(ids := s.conns[c].ids + {id})] && n.owner == s.owner[id := c]
  {
    var ids := s.conns[c].ids + {id};
    var s1 := Step(s, Register(c, id));
    assert s1.conns[c] == Conn(ids, s.conns[c].closed, Registered(id));
    var s2 := Step(s1, Arm(c));
    assert s2.conns == s.conns[c := Conn(ids, s.conns[c].closed, Timed(id))];
    var s3 := Step(s2, RecordStop(c));
    assert s3.conns == s.conns[c := Conn(ids, s.conns[c].closed, Recorded(id))];
    assert s3.pending == s.pending[id := Request(c, true)];
    assert Step(s3, Frame(c, false)).conns == s.conns[c := Conn(ids, s.conns[c].closed, Reading)];
  }

  /** A request that was taken while it was forwarded leaves no armed timer behind. */
  lemma ForwardStopsLate(s: Server, c: nat, id: Id)
    requires Inv(s) && c < |s.conns| && s.conns[c].serve == Timed(id) && id !in s.pending
    ensures var n := Step(s, RecordStop(c)); id in n.timers && !n.timers[id].Armed? && n.conns[c].serve == Recorded(id)
  {
    assert ConnOk(s, c);
  }

  /** The answer of a winner is written to an open client as soon as nobody else writes to it; to a closed
      one nothing is written. Either way the task ends. */
  lemma AnswersAreWritten(s: Server, k: nat)
    requires Inv(s) && Undecided(s, k) && Free(s, s.tasks[k].conn)
    ensures var c := s.tasks[k].conn; var n := Step(s, Advance(k, false));
      && c < |s.conns|
      && LineOf(s, Advance(k, false)) == (if s.conns[c].closed then [] else [k])
      && (s.conns[c].closed ==> n.tasks[k].phase.Done?)
      && (!s.conns[c].closed ==> n.tasks[k].phase.Writing? && Step(n, Advance(k, false)).tasks[k].phase.Done?)
  {
    assert TaskOk(s, k);
    AdvanceMoves(s, k, false);
    if !s.conns[s.tasks[k].conn].closed { AdvanceMoves(Step(s, Advance(k, false)), k, false); }
  }

  /** A write that fails closes its client: no request of it is left, and it is closed. */
  lemma FailedWritesClose(s: Server, k: nat)
    requires Inv(s) && k < |s.tasks| && s.tasks[k].phase.Writing?
    ensures var c := s.tasks[k].conn;
      var n := Step(Step(Step(s, Advance(k, true)), Advance(k, true)), Advance(k, true));
      && c < |n.conns| && n.conns[c].closed && n.conns[c].ids == {}
      && (forall id :: id in n.pending ==> n.pending[id].conn != c)
  {
    var c := s.tasks[k].conn;
    assert TaskOk(s, k);
    var s1 := Step(s, Advance(k, true));
    StepKeeps(s, Advance(k, true));
    AdvanceMoves(s, k, true);
    NobodyElseWrites(s, k);
    assert s1.pending == s.pending && s1.conns == s.conns;
    CloseTakesAll(s1, k, true);
    var s2 := Step(s1, Advance(k, true));
    AdvanceMoves(s1, k, true);
    assert Free(s2, c);
    assert s2.pending == s1.pending - s1.conns[c].ids;
    forall id | id in s2.pending ensures s2.pending[id].conn != c {
      assert IdOk(s1, id);
    }
    ShutsNow(s2, k, true);
  }

  lemma ShutsNow(s: Server, k: nat, fails: bool)
    requires k < |s.tasks| && s.tasks[k].phase.Shutting? && s.tasks[k].conn < |s.conns| && Free(s, s.tasks[k].conn)
    ensures var c := s.tasks[k].conn; var n := DoAdvance(s, k, fails);
      && n.pending == s.pending && n.conns == s.conns[c := s.conns[c].(closed := true)]
      && n.tasks == s.tasks[k := s.tasks[k].(phase := Done, counted := false)]
  {
  }

  lemma NobodyElseWrites(s: Server, k: nat)
    requires Inv(s) && k < |s.tasks| && s.tasks[k].phase.Writing?
    ensures forall j :: 0 <= j < |s.tasks| && j != k ==>
      !(s.tasks[j].conn == s.tasks[k].conn && s.tasks[j].phase.Writing?)
  {
  }

  /** A client that hangs up is closed, and its `serve` returns once its writes are over. */
  lemma HangupReturns(s: Server, c: nat, fails: bool)
    requires Inv(s) && c < |s.conns| && s.conns[c].serve.Reading? && Unwritten(c, s.tasks)
    ensures var k := |s.tasks|;
      var n := Step(Step(Step(Step(Step(s, Hangup(c)), Advance(k, fails)), Advance(k, fails)), Proceed(c)), Proceed(c));
      ReturnedAt(n, c) && n.conns[c].closed && n.conns[c].ids == {}
  {
    var k := |s.tasks|;
    var s1 := Step(s, Hangup(c));
    assert s1.tasks == s.tasks + [Task(c, Dropping, false, None)] && s1.conns[c].serve == Closing(k);
    assert s1.tasks[..k] == s.tasks;
    StepKeeps(s, Hangup(c));
    ClosingReturns(s1, c, k, fails);
  }

  lemma ClosingReturns(s: Server, c: nat, k: nat, fails: bool)
    requires Inv(s) && c < |s.conns| && s.conns[c].serve == Closing(k)
    requires k == |s.tasks| - 1 && s.tasks[k] == Task(c, Dropping, false, None) && Unwritten(c, s.tasks[..k])
    ensures var n := Step(Step(Step(Step(s, Advance(k, fails)), Advance(k, fails)), Proceed(c)), Proceed(c));
      ReturnedAt(n, c) && n.conns[c].closed && n.conns[c].ids == {}
  {
    CloseTakesAll(s, k, fails);
    AdvanceMoves(s, k, fails);
    AdvanceLeavesServe(s, k, fails, c);
    var s1 := Step(s, Advance(k, fails));
    UnwrittenIsFree(s, s1, c, k);
    ShutsNow(s1, k, fails);
    var s2 := Step(s1, Advance(k, fails));
    assert s2.conns[c].serve == Closing(k) && s2.tasks[k].phase.Done?;
    var s3 := Step(s2, Proceed(c));
    assert s3.conns[c].serve == Waiting && s3.tasks == s2.tasks;
    forall j | 0 <= j < |s3.tasks| ensures !(s3.tasks[j].conn == c && s3.tasks[j].counted) {
      if j < k { assert s3.tasks[j] == s.tasks[..k][j]; }
    }
  }

  lemma UnwrittenIsFree(s: Server, n: Server, c: nat, k: nat)
    requires Inv(s) && k == |s.tasks| - 1 && Unwritten(c, s.tasks[..k])
    requires |n.tasks| == |s.tasks| && n.tasks[..k] == s.tasks[..k] && !n.tasks[k].phase.Writing?
    ensures Free(n, c)
  {
    forall j | 0 <= j < |n.tasks| ensures !(n.tasks[j].conn == c && n.tasks[j].phase.Writing?) {
      if j < k {
        assert TaskOk(s, j);
        assert n.tasks[j] == n.tasks[..k][j] == s.tasks[..k][j] == s.tasks[j];
      }
    }
  }

  /** A client that anybody closes is closed, with nothing left of it in the table, as soon as nobody
      writes to it. */
  lemma ClosesEnd(s: Server, c: nat, fails: bool)
    requires Inv(s) && c < |s.conns| && Free(s, c)
    ensures var k := |s.tasks|; var n := Step(Step(Step(s, Close(c)), Advance(k, fails)), Advance(k, fails));
      && |n.conns| == |s.conns| && n.conns[c].closed && n.conns[c].ids == {} && n.conns[c].serve == s.conns[c].serve
      && (forall id :: id in n.pending ==> n.pending[id].conn != c)
  {
    var k := |s.tasks|;
    var s1 := Step(s, Close(c));
    StepKeeps(s, Close(c));
    assert s1.tasks == s.tasks + [Task(c, Dropping, false, None)] && s1.conns == s.conns;
    DropClears(s1, k, c, fails);
  }

  lemma DropClears(s: Server, k: nat, c: nat, fails: bool)
    requires Inv(s) && k < |s.tasks| && s.tasks[k].phase.Dropping? && s.tasks[k].conn == c && Free(s, c)
    ensures var n := Step(Step(s, Advance(k, fails)), Advance(k, fails));
      && c < |s.conns| == |n.conns| && n.conns[c].closed && n.conns[c].ids == {} && n.conns[c].serve == s.conns[c].serve
      && (forall id :: id in n.pending ==> n.pending[id].conn != c)
  {
    CloseTakesAll(s, k, fails);
    AdvanceMoves(s, k, fails);
    AdvanceLeavesServe(s, k, fails, c);
    var s1 := Step(s, Advance(k, fails));
    assert s1.pending == s.pending - s.conns[c].ids;
    ShutsNow(s1, k, fails);
  }

  /** Until it shuts down the server takes every client, and afterwards none. */
  lemma ClientsAreAccepted(s: Server)
    ensures Step(s, Accept).conns == if s.closing then s.conns else s.conns + [Conn({}, false, Reading)]
    ensures Step(s, Shutdown).closing && Step(Step(s, Shutdown), Accept).conns == s.conns
  {
  }

  /** An armed timer that goes off ends its request, if that is still pending. */
  lemma ArmedTimersEnd(s: Server, id: Id)
    requires Inv(s) && id in s.timers && s.timers[id].Armed?
    ensures var n := Step(Step(s, Fire(id)), Expire(id));
      && id !in n.pending && n.timers[id].Ran?
      && (id in s.pending ==> id in n.winner && n.winner[id] == ByTimeout(|s.tasks|))
  {
    StepKeeps(s, Fire(id));
    TimeoutTakes(Step(s, Fire(id)), id);
  }

  /** A line that is no request is answered at once, and the reader goes on when that is over. */
  lemma BadLinesAreAnswered(s: Server, c: nat, n: Server)
    requires c < |s.conns| && s.conns[c].serve.Reading?
    ensures var k := |s.tasks|; var r := Step(s, Refuse(c));
      && r.tasks == s.tasks + [Task(c, Encoding, false, None)]
      && r.conns == s.conns[c := s.conns[c].(serve := Replying(k))]
      && r.pending == s.pending
    ensures c < |n.conns| && n.conns[c].serve == Replying(|s.tasks|) ==>
      |s.tasks| < |n.tasks| && n.tasks[|s.tasks|].phase.Done? ==>
        Step(n, Proceed(c)).conns == n.conns[c := n.conns[c].(serve := Reading)]
  {
  }
}

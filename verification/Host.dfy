/**
 The request table of the native messaging host (cli/internal/host/host.go). Goroutines take
 turns between any two of their mutex sections: the reader of each client (`serve`), timer
 callbacks, the pump of extension replies, the writers it spawns, and whoever closes a client.

 Timers and request ids are the environment's: a timer may fire at any time once armed, and
 `NewID` never repeats an id.
 */
module Host {
  import opened Base

  type Id = nat

  /** `stop` of the source is set exactly when `recorded`. */
  datatype Request = Request(conn: nat, recorded: bool)

  datatype Timer = Armed | Firing | Stopped | Ran

  /** What took a request out of the table, and the task that answers its client. */
  datatype Winner = ByReply(task: nat) | ByTimeout(task: nat) | ByRefusal(task: nat) | ByDisconnect

  /** Where the goroutine in `serve` is. */
  datatype Serve =
    | Reading
    | Registered(id: Id)     // in forward: the request is in the table
    | Timed(id: Id)          // in forward: its timer is armed, stop not yet recorded
    | Recorded(id: Id)       // in forward: the frame is about to be written
    | Replying(k: nat)       // inside reply, task k
    | Closing(k: nat)        // the deferred closeClient, task k
    | Waiting                // the deferred writes.Wait
    | Returned

  /** `closed` is set under the connection's own mutex. */
  datatype Conn = Conn(ids: set<Id>, closed: bool, serve: Serve)

  /** One call of `reply` or `closeClient`: a reply that fails to write closes its client itself. */
  datatype Phase =
    | Encoding    // before the connection's mutex
    | Writing     // holds it
    | Dropping    // closeClient before its section under the server's mutex
    | Shutting    // before it sets closed under the connection's mutex
    | Done

  /** `counted`: the task is in `c.writes`; `answers`: the request its line answers. */
  datatype Task = Task(conn: nat, phase: Phase, counted: bool, answers: Option<Id>)

  datatype Server = Server(
    pending: map<Id, Request>,
    timers: map<Id, Timer>,
    owner: map<Id, nat>,        // every id ever registered, and whose it is
    winner: map<Id, Winner>,    // the requests taken out of the table
    conns: seq<Conn>,
    tasks: seq<Task>,
    closing: bool)

  const START := Server(map[], map[], map[], map[], [], [], false)

  datatype Event =
    | Accept | Shutdown
    | Register(c: nat, id: Id) | Arm(c: nat) | RecordStop(c: nat) | Frame(c: nat, tooLarge: bool)
    | Refuse(c: nat)                    // serve answers a malformed line itself
    | Hangup(c: nat)                    // the read loop of c ends
    | Fire(id: Id) | Expire(id: Id) | Claim(id: Id)
    | Close(c: nat)                     // another goroutine calls closeClient
    | Advance(k: nat, fails: bool)      // task k takes its next step
    | Proceed(c: nat)                   // serve goes on after the call it waits for

  // ----- sections under the server's mutex -----

  /** `stop()`: no effect on a timer whose callback has started. */
  function StopTimer(timers: map<Id, Timer>, id: Id): map<Id, Timer> {
    if id in timers && timers[id].Armed? then timers[id := Stopped] else timers
  }

  function WithConn(s: Server, c: nat, conn: Conn): Server
    requires c < |s.conns|
  {
    s.(conns := s.conns[c := conn])
  }

  function At(s: Server, c: nat, p: Serve): Server
    requires c < |s.conns|
  {
    WithConn(s, c, s.conns[c].(serve := p))
  }

  /** `takeLocked`. */
  function Take(s: Server, id: Id, w: Winner): Server {
    if id !in s.pending || s.pending[id].conn >= |s.conns| then s
    else
      var r := s.pending[id];
      WithConn(s, r.conn, s.conns[r.conn].(ids := s.conns[r.conn].ids - {id})).(
        pending := s.pending - {id},
        winner := s.winner[id := w],
        timers := if r.recorded then StopTimer(s.timers, id) else s.timers)
  }

  // The requests in `gone` that are still pending end with their client, each with its timer.

  function EndWinners(pending: map<Id, Request>, winner: map<Id, Winner>, gone: set<Id>): map<Id, Winner> {
    winner + (map id | id in gone && id in pending :: ByDisconnect)
  }

  function EndTimers(pending: map<Id, Request>, timers: map<Id, Timer>, gone: set<Id>): map<Id, Timer> {
    map id | id in timers ::
      if id in gone && id in pending && pending[id].recorded && timers[id].Armed? then Stopped else timers[id]
  }

  /** The section of `closeClient`. */
  function Drop(s: Server, c: nat): Server
    requires c < |s.conns|
  {
    var gone := s.conns[c].ids;
    WithConn(s, c, s.conns[c].(ids := {})).(
      pending := s.pending - gone,
      winner := EndWinners(s.pending, s.winner, gone),
      timers := EndTimers(s.pending, s.timers, gone))
  }

  // ----- the goroutines -----

  function Spawn(s: Server, c: nat, p: Phase, answers: Option<Id> := None): Server {
    s.(tasks := s.tasks + [Task(c, p, false, answers)])
  }

  /** `take`, and the reply that only its winner writes. */
  function Win(s: Server, id: Id, w: Winner): Server {
    if id in s.pending then Spawn(Take(s, id, w), s.pending[id].conn, Encoding, Some(id)) else s
  }

  /** `forward` up to the end of its first section. */
  function DoRegister(s: Server, c: nat, id: Id): Server {
    if c >= |s.conns| || !s.conns[c].serve.Reading? || id in s.owner then s
    else
      WithConn(s, c, Conn(s.conns[c].ids + {id}, s.conns[c].closed, Registered(id))).(
        pending := s.pending[id := Request(c, false)], owner := s.owner[id := c])
  }

  function DoArm(s: Server, c: nat): Server {
    if c >= |s.conns| || !s.conns[c].serve.Registered? then s
    else
      var id := s.conns[c].serve.id;
      At(s, c, Timed(id)).(timers := s.timers[id := Armed])
  }

  /** The second section of `forward`: a request that is gone by now has its timer stopped here. */
  function DoRecordStop(s: Server, c: nat): Server {
    if c >= |s.conns| || !s.conns[c].serve.Timed? then s
    else
      var id := s.conns[c].serve.id;
      var s' := At(s, c, Recorded(id));
      if id in s.pending then s'.(pending := s.pending[id := s.pending[id].(recorded := true)])
      else s'.(timers := StopTimer(s.timers, id))
  }

  /** The frame is written, or refused for its size. */
  function DoFrame(s: Server, c: nat, tooLarge: bool): Server {
    if c >= |s.conns| || !s.conns[c].serve.Recorded? then s
    else
      var id := s.conns[c].serve.id;
      if tooLarge && id in s.pending && s.pending[id].conn == c then
        At(Win(s, id, ByRefusal(|s.tasks|)), c, Replying(|s.tasks|))
      else At(s, c, Reading)
  }

  function DoRefuse(s: Server, c: nat): Server {
    if c >= |s.conns| || !s.conns[c].serve.Reading? then s
    else At(Spawn(s, c, Encoding), c, Replying(|s.tasks|))
  }

  function DoHangup(s: Server, c: nat): Server {
    if c >= |s.conns| || !s.conns[c].serve.Reading? then s
    else At(Spawn(s, c, Dropping), c, Closing(|s.tasks|))
  }

  function DoFire(s: Server, id: Id): Server {
    if id in s.timers && s.timers[id].Armed? then s.(timers := s.timers[id := Firing]) else s
  }

  function DoExpire(s: Server, id: Id): Server {
    if id !in s.timers || !s.timers[id].Firing? then s
    else
      Win(s.(timers := s.timers[id := Ran]), id, ByTimeout(|s.tasks|))
  }

  function DoClaim(s: Server, id: Id): Server {
    Win(s, id, ByReply(|s.tasks|))
  }

  /** Nobody holds the mutex of connection `c`. */
  predicate Free(s: Server, c: nat) {
    forall k :: 0 <= k < |s.tasks| ==> !(s.tasks[k].conn == c && s.tasks[k].phase.Writing?)
  }

  function PutTask(s: Server, k: nat, t: Task): Server
    requires k < |s.tasks|
  {
    s.(tasks := s.tasks[k := t])
  }

  function DoAdvance(s: Server, k: nat, fails: bool): Server {
    if k >= |s.tasks| || s.tasks[k].conn >= |s.conns| then s
    else
      var t := s.tasks[k];
      match t.phase
      case Encoding =>
        if fails then PutTask(s, k, t.(phase := Done))
        else if !Free(s, t.conn) then s
        else if s.conns[t.conn].closed then PutTask(s, k, t.(phase := Done))
        else PutTask(s, k, t.(phase := Writing, counted := true))
      case Writing => PutTask(s, k, if fails then t.(phase := Dropping) else t.(phase := Done, counted := false))
      case Dropping => PutTask(Drop(s, t.conn), k, t.(phase := Shutting))
      case Shutting =>
        if !Free(s, t.conn) then s
        else PutTask(WithConn(s, t.conn, s.conns[t.conn].(closed := true)), k, t.(phase := Done, counted := false))
      case Done => s
  }

  /** `c.writes` is at zero. */
  predicate Unwritten(c: nat, tasks: seq<Task>) {
    forall k :: 0 <= k < |tasks| ==> !(tasks[k].conn == c && tasks[k].counted)
  }

  function AfterCall(c: nat, p: Serve, tasks: seq<Task>): Serve {
    match p
    case Replying(k) => if k < |tasks| && tasks[k].phase.Done? then Reading else p
    case Closing(k) => if k < |tasks| && tasks[k].phase.Done? then Waiting else p
    case Waiting => if Unwritten(c, tasks) then Returned else p
    case _ => p
  }

  function DoProceed(s: Server, c: nat): Server {
    if c < |s.conns| then At(s, c, AfterCall(c, s.conns[c].serve, s.tasks)) else s
  }

  function Step(s: Server, e: Event): Server {
    match e
    case Accept => if s.closing then s else s.(conns := s.conns + [Conn({}, false, Reading)])
    case Shutdown => s.(closing := true)
    case Register(c, id) => DoRegister(s, c, id)
    case Arm(c) => DoArm(s, c)
    case RecordStop(c) => DoRecordStop(s, c)
    case Frame(c, tooLarge) => DoFrame(s, c, tooLarge)
    case Refuse(c) => DoRefuse(s, c)
    case Hangup(c) => DoHangup(s, c)
    case Fire(id) => DoFire(s, id)
    case Expire(id) => DoExpire(s, id)
    case Claim(id) => DoClaim(s, id)
    case Close(c) => if c < |s.conns| then Spawn(s, c, Dropping) else s
    case Advance(k, fails) => DoAdvance(s, k, fails)
    case Proceed(c) => DoProceed(s, c)
  }

  function Steps(es: seq<Event>): Server {
    if es == [] then START else Step(Steps(es[..|es| - 1]), es[|es| - 1])
  }

  // ----- the invariant -----

  /** The `forward` of the request has not recorded its timer yet. */
  predicate InForward(s: Server, id: Id) {
    && id in s.owner && s.owner[id] < |s.conns|
    && (s.conns[s.owner[id]].serve == Registered(id) || s.conns[s.owner[id]].serve == Timed(id))
  }

  predicate Live(s: Server, id: Id) {
    id in s.timers && (s.timers[id].Armed? || s.timers[id].Firing?)
  }

  /** One request: in the table or taken out by one winner; past the second section of `forward`,
      pending exactly while its timer is armed or its callback is on its way to find it there. */
  ghost predicate IdOk(s: Server, id: Id) {
    && (id in s.owner <==> id in s.pending || id in s.winner)
    && !(id in s.pending && id in s.winner)
    && (id in s.timers ==> id in s.owner)
    && (id in s.owner ==> s.owner[id] < |s.conns|)
    && (id in s.pending ==> (
          && s.pending[id].conn == s.owner[id] && id in s.conns[s.owner[id]].ids
          && if InForward(s, id) then !s.pending[id].recorded else s.pending[id].recorded && Live(s, id)))
    && (id in s.timers && s.timers[id].Armed? && !InForward(s, id) ==> id in s.pending)
  }

  /** One client: its id set, and where its reader is against the request or the call it is at. */
  ghost predicate ConnOk(s: Server, c: nat)
    requires c < |s.conns|
  {
    var conn := s.conns[c];
    && (forall id :: id in conn.ids ==> id in s.pending && s.pending[id].conn == c)
    && (conn.serve.Registered? || conn.serve.Timed? || conn.serve.Recorded? ==>
          conn.serve.id in s.owner && s.owner[conn.serve.id] == c)
    && (conn.serve.Registered? ==> conn.serve.id !in s.timers)
    && (conn.serve.Timed? ==> (
          && conn.serve.id in s.timers && !s.timers[conn.serve.id].Stopped?
          && (conn.serve.id in s.pending ==> !s.timers[conn.serve.id].Ran?)))
    && (conn.serve.Closing? ==> (
          && conn.serve.k < |s.tasks| && s.tasks[conn.serve.k].conn == c
          && !s.tasks[conn.serve.k].phase.Encoding? && !s.tasks[conn.serve.k].phase.Writing?
          && (s.tasks[conn.serve.k].phase.Shutting? ==> conn.ids == {})
          && (s.tasks[conn.serve.k].phase.Done? ==> conn.ids == {} && conn.closed)))
    && (conn.serve.Waiting? || conn.serve.Returned? ==> conn.ids == {} && conn.closed)
    && (conn.serve.Returned? ==> Unwritten(c, s.tasks))
  }

  ghost predicate TaskOk(s: Server, k: nat)
    requires k < |s.tasks|
  {
    var t := s.tasks[k];
    && t.conn < |s.conns|
    && (t.phase.Writing? ==> t.counted && !s.conns[t.conn].closed)
    && (t.counted ==> !t.phase.Encoding? && !t.phase.Done?)
  }

  /** A client's mutex admits one writer. */
  ghost predicate OneWriter(tasks: seq<Task>) {
    forall j, k :: 0 <= j < k < |tasks| && tasks[j].phase.Writing? && tasks[k].phase.Writing? ==>
      tasks[j].conn != tasks[k].conn
  }

  ghost predicate Inv(s: Server) {
    && (forall id :: IdOk(s, id))
    && (forall c: nat :: c < |s.conns| ==> ConnOk(s, c))
    && (forall k: nat :: k < |s.tasks| ==> TaskOk(s, k))
    && OneWriter(s.tasks)
  }

  // ----- every step keeps the invariant -----

  predicate AtId(p: Serve, id: Id) {
    p == Registered(id) || p == Timed(id) || p == Recorded(id)
  }

  lemma RegisterKeeps(s: Server, c: nat, id: Id)
    requires Inv(s)
    ensures Inv(DoRegister(s, c, id))
  {
    var n := DoRegister(s, c, id);
    assert IdOk(s, id);
    forall i ensures IdOk(n, i) { assert IdOk(s, i); }
    forall i: nat | i < |n.conns| ensures ConnOk(n, i) {
      assert ConnOk(s, i);
      forall j | j in n.conns[i].ids || AtId(n.conns[i].serve, j) ensures IdOk(s, j) {}
    }
    forall i: nat | i < |n.tasks| ensures TaskOk(n, i) { if i < |s.tasks| { assert TaskOk(s, i); } }
  }

  lemma ArmKeeps(s: Server, c: nat)
    requires Inv(s)
    ensures Inv(DoArm(s, c))
  {
    var n := DoArm(s, c);
    if c < |s.conns| { assert ConnOk(s, c); }
    forall i ensures IdOk(n, i) { assert IdOk(s, i); }
    forall i: nat | i < |n.conns| ensures ConnOk(n, i) {
      assert ConnOk(s, i);
      forall j | j in n.conns[i].ids || AtId(n.conns[i].serve, j) ensures IdOk(s, j) {}
    }
    forall i: nat | i < |n.tasks| ensures TaskOk(n, i) { if i < |s.tasks| { assert TaskOk(s, i); } }
  }

  lemma RecordStopKeeps(s: Server, c: nat)
    requires Inv(s)
    ensures Inv(DoRecordStop(s, c))
  {
    if c < |s.conns| && s.conns[c].serve.Timed? {
      assert ConnOk(s, c);
      assert IdOk(s, s.conns[c].serve.id);
      RecordStopIds(s, c);
      var n := DoRecordStop(s, c);
      forall i: nat | i < |n.conns| ensures ConnOk(n, i) {
        assert ConnOk(s, i);
        forall j | j in n.conns[i].ids || AtId(n.conns[i].serve, j) ensures IdOk(s, j) {}
      }
      forall i: nat | i < |n.tasks| ensures TaskOk(n, i) { assert TaskOk(s, i); }
    }
  }

  lemma RecordStopIds(s: Server, c: nat)
    requires Inv(s) && c < |s.conns| && s.conns[c].serve.Timed?
    ensures forall id :: IdOk(DoRecordStop(s, c), id)
  {
    assert ConnOk(s, c);
    assert IdOk(s, s.conns[c].serve.id);
    forall i ensures IdOk(DoRecordStop(s, c), i) { assert IdOk(s, i); }
  }

  lemma SpawnKeeps(s: Server, c: nat, p: Phase, answers: Option<Id>)
    requires Inv(s) && c < |s.conns| && (p.Encoding? || p.Dropping?)
    ensures Inv(Spawn(s, c, p, answers))
  {
    var n := Spawn(s, c, p, answers);
    forall i ensures IdOk(n, i) { assert IdOk(s, i); }
    forall i: nat | i < |n.conns| ensures ConnOk(n, i) {
      assert ConnOk(s, i);
      forall j | j in n.conns[i].ids || AtId(n.conns[i].serve, j) ensures IdOk(s, j) {}
    }
    forall i: nat | i < |n.tasks| ensures TaskOk(n, i) { if i < |s.tasks| { assert TaskOk(s, i); } }
  }

  lemma TakeKeeps(s: Server, id: Id, w: Winner)
    requires Inv(s) && id in s.pending
    ensures Inv(Take(s, id, w))
  {
    var n := Take(s, id, w);
    assert IdOk(s, id);
    forall i ensures IdOk(n, i) { assert IdOk(s, i); }
    forall i: nat | i < |n.conns| ensures ConnOk(n, i) {
      assert ConnOk(s, i);
      forall j | j in n.conns[i].ids || AtId(n.conns[i].serve, j) ensures IdOk(s, j) {}
    }
    forall i: nat | i < |n.tasks| ensures TaskOk(n, i) { if i < |s.tasks| { assert TaskOk(s, i); } }
  }

  lemma DropKeeps(s: Server, c: nat)
    requires Inv(s) && c < |s.conns|
    ensures Inv(Drop(s, c))
  {
    var n := Drop(s, c);
    assert ConnOk(s, c);
    forall i ensures IdOk(n, i) { assert IdOk(s, i); }
    forall i: nat | i < |n.conns| ensures ConnOk(n, i) {
      assert ConnOk(s, i);
      forall j | j in n.conns[i].ids || AtId(n.conns[i].serve, j) ensures IdOk(s, j) {}
    }
    forall i: nat | i < |n.tasks| ensures TaskOk(n, i) { if i < |s.tasks| { assert TaskOk(s, i); } }
  }

  lemma FireKeeps(s: Server, id: Id)
    requires Inv(s)
    ensures Inv(DoFire(s, id))
  {
    var n := DoFire(s, id);
    forall i ensures IdOk(n, i) { assert IdOk(s, i); }
    forall i: nat | i < |n.conns| ensures ConnOk(n, i) {
      assert ConnOk(s, i);
      forall j | j in n.conns[i].ids || AtId(n.conns[i].serve, j) ensures IdOk(s, j) {}
    }
    forall i: nat | i < |n.tasks| ensures TaskOk(n, i) { if i < |s.tasks| { assert TaskOk(s, i); } }
  }

  predicate MayMove(s: Server, c: nat, p: Serve) {
    && c < |s.conns| && !s.conns[c].serve.Registered? && !s.conns[c].serve.Timed?
    && match p
       case Closing(k) => k < |s.tasks| && s.tasks[k].conn == c && s.tasks[k].phase.Dropping?
       case Waiting => s.conns[c].ids == {} && s.conns[c].closed
       case Returned => s.conns[c].ids == {} && s.conns[c].closed && Unwritten(c, s.tasks)
       case _ => p.Reading? || p.Replying?
  }

  lemma MoveKeeps(s: Server, c: nat, p: Serve)
    requires Inv(s) && MayMove(s, c, p)
    ensures Inv(At(s, c, p))
  {
    var n := At(s, c, p);
    forall i ensures IdOk(n, i) { assert IdOk(s, i); }
    forall i: nat | i < |n.conns| ensures ConnOk(n, i) {
      assert ConnOk(s, i);
      forall j | j in n.conns[i].ids || AtId(n.conns[i].serve, j) ensures IdOk(s, j) {}
    }
    forall i: nat | i < |n.tasks| ensures TaskOk(n, i) { assert TaskOk(s, i); }
  }

  lemma ProceedKeeps(s: Server, c: nat)
    requires Inv(s)
    ensures Inv(DoProceed(s, c))
  {
    if c < |s.conns| {
      assert ConnOk(s, c);
      var p := AfterCall(c, s.conns[c].serve, s.tasks);
      if p != s.conns[c].serve {
        MoveKeeps(s, c, p);
      } else {
        assert At(s, c, p) == s;
      }
    }
  }

  lemma FrameKeeps(s: Server, c: nat, tooLarge: bool)
    requires Inv(s)
    ensures Inv(DoFrame(s, c, tooLarge))
  {
    if c < |s.conns| && s.conns[c].serve.Recorded? {
      assert ConnOk(s, c);
      var id := s.conns[c].serve.id;
      assert IdOk(s, id);
      if tooLarge && id in s.pending {
        WinKeeps(s, id, ByRefusal(|s.tasks|));
        MoveKeeps(Win(s, id, ByRefusal(|s.tasks|)), c, Replying(|s.tasks|));
      } else {
        MoveKeeps(s, c, Reading);
      }
    }
  }

  lemma RefuseKeeps(s: Server, c: nat)
    requires Inv(s)
    ensures Inv(DoRefuse(s, c))
  {
    if c < |s.conns| && s.conns[c].serve.Reading? {
      SpawnKeeps(s, c, Encoding, None);
      MoveKeeps(Spawn(s, c, Encoding), c, Replying(|s.tasks|));
    }
  }

  lemma HangupKeeps(s: Server, c: nat)
    requires Inv(s)
    ensures Inv(DoHangup(s, c))
  {
    if c < |s.conns| && s.conns[c].serve.Reading? {
      SpawnKeeps(s, c, Dropping, None);
      MoveKeeps(Spawn(s, c, Dropping), c, Closing(|s.tasks|));
    }
  }

  lemma WinKeeps(s: Server, id: Id, w: Winner)
    requires Inv(s)
    ensures Inv(Win(s, id, w))
  {
    if id in s.pending {
      assert IdOk(s, id);
      TakeKeeps(s, id, w);
      SpawnKeeps(Take(s, id, w), s.pending[id].conn, Encoding, Some(id));
    }
  }

  lemma RanKeeps(s: Server, id: Id)
    requires Inv(s) && id in s.timers && s.timers[id].Firing? && id !in s.pending
    ensures Inv(s.(timers := s.timers[id := Ran]))
  {
    var n := s.(timers := s.timers[id := Ran]);
    forall i ensures IdOk(n, i) { assert IdOk(s, i); }
    forall i: nat | i < |n.conns| ensures ConnOk(n, i) { assert ConnOk(s, i); }
    forall i: nat | i < |n.tasks| ensures TaskOk(n, i) { assert TaskOk(s, i); }
  }

  lemma ExpireKeeps(s: Server, id: Id)
    requires Inv(s)
    ensures Inv(DoExpire(s, id))
  {
    if id in s.timers && s.timers[id].Firing? {
      assert IdOk(s, id);
      var w := ByTimeout(|s.tasks|);
      WinKeeps(s, id, w);
      var won := Win(s, id, w);
      RanKeeps(won, id);
      assert DoExpire(s, id) == won.(timers := won.timers[id := Ran]);
    }
  }

  /** A task may start to write while its client is open and nobody else writes, and goes on from
      there; a task that closes has cleared the id set before it sets `closed`. */
  predicate MayPut(s: Server, k: nat, t: Task) {
    && k < |s.tasks| && t.conn == s.tasks[k].conn < |s.conns|
    && match t.phase
       case Encoding => false
       case Writing => s.tasks[k].phase.Encoding? && Free(s, t.conn) && !s.conns[t.conn].closed && t.counted
       case Dropping => s.tasks[k].phase.Writing? && t.counted == s.tasks[k].counted
       case Shutting => s.tasks[k].phase.Dropping? && s.conns[t.conn].ids == {} && t.counted == s.tasks[k].counted
       case Done =>
         && !t.counted && !s.tasks[k].phase.Dropping?
         && (s.tasks[k].phase.Shutting? ==> s.conns[t.conn].closed)
  }

  lemma PutKeeps(s: Server, k: nat, t: Task)
    requires Inv(s) && MayPut(s, k, t)
    ensures Inv(PutTask(s, k, t))
  {
    var n := PutTask(s, k, t);
    assert TaskOk(s, k);
    forall i ensures IdOk(n, i) { assert IdOk(s, i); }
    forall i: nat | i < |n.conns| ensures ConnOk(n, i) { assert ConnOk(s, i); }
    forall i: nat | i < |n.tasks| ensures TaskOk(n, i) { assert TaskOk(s, i); }
  }

  lemma ShutKeeps(s: Server, c: nat)
    requires Inv(s) && c < |s.conns| && Free(s, c)
    ensures Inv(WithConn(s, c, s.conns[c].(closed := true)))
  {
    var n := WithConn(s, c, s.conns[c].(closed := true));
    forall i ensures IdOk(n, i) { assert IdOk(s, i); }
    forall i: nat | i < |n.conns| ensures ConnOk(n, i) { assert ConnOk(s, i); }
    forall i: nat | i < |n.tasks| ensures TaskOk(n, i) { assert TaskOk(s, i); }
  }

  lemma AdvanceKeeps(s: Server, k: nat, fails: bool)
    requires Inv(s)
    ensures Inv(DoAdvance(s, k, fails))
  {
    if k < |s.tasks| {
      var t := s.tasks[k];
      assert TaskOk(s, k);
      match t.phase
      case Encoding =>
        if fails || s.conns[t.conn].closed { PutKeeps(s, k, t.(phase := Done)); }
        else if Free(s, t.conn) { PutKeeps(s, k, t.(phase := Writing, counted := true)); }
      case Writing => PutKeeps(s, k, if fails then t.(phase := Dropping) else t.(phase := Done, counted := false));
      case Dropping => DropKeeps(s, t.conn); PutKeeps(Drop(s, t.conn), k, t.(phase := Shutting));
      case Shutting =>
        if Free(s, t.conn) {
          ShutKeeps(s, t.conn);
          PutKeeps(WithConn(s, t.conn, s.conns[t.conn].(closed := true)), k, t.(phase := Done, counted := false));
        }
      case Done =>
    }
  }

  lemma StepKeeps(s: Server, e: Event)
    requires Inv(s)
    ensures Inv(Step(s, e))
  {
    match e
    case Accept => AcceptKeeps(s);
    case Shutdown => ShutdownKeeps(s);
    case Register(c, id) => RegisterKeeps(s, c, id);
    case Arm(c) => ArmKeeps(s, c);
    case RecordStop(c) => RecordStopKeeps(s, c);
    case Frame(c, tooLarge) => FrameKeeps(s, c, tooLarge);
    case Refuse(c) => RefuseKeeps(s, c);
    case Hangup(c) => HangupKeeps(s, c);
    case Fire(id) => FireKeeps(s, id);
    case Expire(id) => ExpireKeeps(s, id);
    case Claim(id) => WinKeeps(s, id, ByReply(|s.tasks|));
    case Close(c) => if c < |s.conns| { SpawnKeeps(s, c, Dropping, None); }
    case Advance(k, fails) => AdvanceKeeps(s, k, fails);
    case Proceed(c) => ProceedKeeps(s, c);
  }

  lemma AcceptKeeps(s: Server)
    requires Inv(s)
    ensures Inv(Step(s, Accept))
  {
    var n := Step(s, Accept);
    forall i ensures IdOk(n, i) { assert IdOk(s, i); }
    forall i: nat | i < |n.conns| ensures ConnOk(n, i) { if i < |s.conns| { assert ConnOk(s, i); } }
    forall i: nat | i < |n.tasks| ensures TaskOk(n, i) { assert TaskOk(s, i); }
  }

  lemma ShutdownKeeps(s: Server)
    requires Inv(s)
    ensures Inv(Step(s, Shutdown))
  {
    var n := Step(s, Shutdown);
    forall i ensures IdOk(n, i) { assert IdOk(s, i); }
    forall i: nat | i < |n.conns| ensures ConnOk(n, i) { assert ConnOk(s, i); }
    forall i: nat | i < |n.tasks| ensures TaskOk(n, i) { assert TaskOk(s, i); }
  }

  lemma {:induction false} RunKeeps(es: seq<Event>)
    ensures Inv(Steps(es))
  {
    if es == [] {
      forall id ensures IdOk(START, id) {}
    } else {
      RunKeeps(es[..|es| - 1]);
      StepKeeps(Steps(es[..|es| - 1]), es[|es| - 1]);
    }
  }

  // ----- answers -----

  /** The lines written for requests: one for each request that a reply, its timeout or a refusal
      won, and no other. */
  ghost predicate AnswersOk(winner: map<Id, Winner>, tasks: seq<Task>, owner: map<Id, nat>) {
    && (forall id :: id in winner && !winner[id].ByDisconnect? ==>
          winner[id].task < |tasks| && tasks[winner[id].task].answers == Some(id))
    && (forall k :: 0 <= k < |tasks| && tasks[k].answers.Some? ==> (
          var id := tasks[k].answers.value;
          && id in winner && !winner[id].ByDisconnect? && winner[id].task == k
          && id in owner && tasks[k].conn == owner[id]))
  }

  ghost predicate Answered(s: Server) {
    AnswersOk(s.winner, s.tasks, s.owner)
  }

  /** A step of one section: earlier tasks answer what they did, earlier winners stay. */
  ghost predicate Onward(s: Server, n: Server) {
    && |s.tasks| <= |n.tasks|
    && (forall k :: 0 <= k < |s.tasks| ==>
          n.tasks[k].answers == s.tasks[k].answers && n.tasks[k].conn == s.tasks[k].conn)
    && (forall id :: id in s.winner ==> id in n.winner && n.winner[id] == s.winner[id])
    && (forall id :: id in s.owner ==> id in n.owner && n.owner[id] == s.owner[id])
  }

  lemma WinAnswers(s: Server, id: Id, w: Winner)
    requires Inv(s) && Answered(s)
    requires !w.ByDisconnect? && w.task == |s.tasks|
    ensures Answered(Win(s, id, w)) && Onward(s, Win(s, id, w))
  {
    assert IdOk(s, id);
  }

  lemma DropAnswers(s: Server, c: nat)
    requires Inv(s) && Answered(s) && c < |s.conns|
    ensures Answered(Drop(s, c)) && Onward(s, Drop(s, c))
  {
    forall id | id in s.conns[c].ids && id in s.pending ensures id !in s.winner { assert IdOk(s, id); }
  }

  /** A step that takes nothing out and answers nobody. */
  ghost predicate Quiet(s: Server, n: Server) {
    && n.winner == s.winner
    && |s.tasks| <= |n.tasks|
    && (forall k :: 0 <= k < |s.tasks| ==>
          n.tasks[k].answers == s.tasks[k].answers && n.tasks[k].conn == s.tasks[k].conn)
    && (forall k :: |s.tasks| <= k < |n.tasks| ==> n.tasks[k].answers == None)
    && (forall id :: id in s.owner ==> id in n.owner && n.owner[id] == s.owner[id])
  }

  lemma QuietAnswers(s: Server, n: Server)
    requires Answered(s) && Quiet(s, n)
    ensures Answered(n) && Onward(s, n)
  {}

  lemma PutIsQuiet(s: Server, k: nat, t: Task)
    requires k < |s.tasks| && t.answers == s.tasks[k].answers && t.conn == s.tasks[k].conn
    ensures Quiet(s, PutTask(s, k, t))
  {}

  lemma AdvanceIsQuiet(s: Server, k: nat, fails: bool)
    requires k < |s.tasks| && !s.tasks[k].phase.Dropping?
    ensures Quiet(s, DoAdvance(s, k, fails))
  {
    var t := s.tasks[k];
    match t.phase
    case Encoding =>
      PutIsQuiet(s, k, t.(phase := Done));
      PutIsQuiet(s, k, t.(phase := Writing, counted := true));
    case Writing => PutIsQuiet(s, k, if fails then t.(phase := Dropping) else t.(phase := Done, counted := false));
    case Shutting => ShutIsQuiet(s, k, fails);
    case Done =>
  }

  lemma ShutIsQuiet(s: Server, k: nat, fails: bool)
    requires k < |s.tasks| && s.tasks[k].phase.Shutting?
    ensures Quiet(s, DoAdvance(s, k, fails))
  {
    var t := s.tasks[k];
    if t.conn < |s.conns| {
      PutIsQuiet(WithConn(s, t.conn, s.conns[t.conn].(closed := true)), k, t.(phase := Done, counted := false));
    }
  }

  lemma AdvanceAnswers(s: Server, k: nat, fails: bool)
    requires Inv(s) && Answered(s)
    ensures Answered(DoAdvance(s, k, fails)) && Onward(s, DoAdvance(s, k, fails))
  {
    if k < |s.tasks| && s.tasks[k].conn < |s.conns| && s.tasks[k].phase.Dropping? {
      var dropped := Drop(s, s.tasks[k].conn);
      DropAnswers(s, s.tasks[k].conn);
      PutIsQuiet(dropped, k, s.tasks[k].(phase := Shutting));
      QuietAnswers(dropped, DoAdvance(s, k, fails));
    } else if k < |s.tasks| {
      if !s.tasks[k].phase.Dropping? { AdvanceIsQuiet(s, k, fails); }
      QuietAnswers(s, DoAdvance(s, k, fails));
    }
  }

  lemma StepAnswers(s: Server, e: Event)
    requires Inv(s) && Answered(s)
    ensures Answered(Step(s, e)) && Onward(s, Step(s, e))
  {
    match e
    case Expire(id) => ExpireAnswers(s, id);
    case Claim(id) => WinAnswers(s, id, ByReply(|s.tasks|));
    case Frame(c, tooLarge) => FrameAnswers(s, c, tooLarge);
    case Advance(k, fails) => AdvanceAnswers(s, k, fails);
    case _ =>
      QuietStep(s, e);
      QuietAnswers(s, Step(s, e));
  }

  lemma RegisterIsQuiet(s: Server, c: nat, id: Id)
    ensures Quiet(s, DoRegister(s, c, id))
  {}

  lemma ArmIsQuiet(s: Server, c: nat)
    ensures Quiet(s, DoArm(s, c))
  {}

  lemma RecordStopIsQuiet(s: Server, c: nat)
    ensures Quiet(s, DoRecordStop(s, c))
  {}

  lemma RefuseIsQuiet(s: Server, c: nat)
    ensures Quiet(s, DoRefuse(s, c))
  {}

  lemma HangupIsQuiet(s: Server, c: nat)
    ensures Quiet(s, DoHangup(s, c))
  {}

  lemma ProceedIsQuiet(s: Server, c: nat)
    ensures Quiet(s, DoProceed(s, c))
  {}

  lemma QuietStep(s: Server, e: Event)
    requires !e.Expire? && !e.Claim? && !e.Frame? && !e.Advance?
    ensures Quiet(s, Step(s, e))
  {
    match e
    case Register(c, id) => RegisterIsQuiet(s, c, id);
    case Arm(c) => ArmIsQuiet(s, c);
    case RecordStop(c) => RecordStopIsQuiet(s, c);
    case Proceed(c) => ProceedIsQuiet(s, c);
    case Refuse(c) => RefuseIsQuiet(s, c);
    case Hangup(c) => HangupIsQuiet(s, c);
    case _ =>
  }

  lemma ExpireIsWin(s: Server, id: Id)
    requires Inv(s) && id in s.timers && s.timers[id].Firing?
    ensures var won := Win(s, id, ByTimeout(|s.tasks|));
      id in won.timers && DoExpire(s, id) == won.(timers := won.timers[id := Ran]) && Quiet(won, DoExpire(s, id))
  {
    assert IdOk(s, id);
  }

  lemma ExpireAnswers(s: Server, id: Id)
    requires Inv(s) && Answered(s)
    ensures Answered(DoExpire(s, id)) && Onward(s, DoExpire(s, id))
  {
    if id in s.timers && s.timers[id].Firing? {
      var won := Win(s, id, ByTimeout(|s.tasks|));
      WinAnswers(s, id, ByTimeout(|s.tasks|));
      ExpireIsWin(s, id);
      QuietAnswers(won, DoExpire(s, id));
    }
  }

  lemma FrameAnswers(s: Server, c: nat, tooLarge: bool)
    requires Inv(s) && Answered(s)
    ensures Answered(DoFrame(s, c, tooLarge)) && Onward(s, DoFrame(s, c, tooLarge))
  {
    if c < |s.conns| && s.conns[c].serve.Recorded? { WinAnswers(s, s.conns[c].serve.id, ByRefusal(|s.tasks|)); }
  }

  lemma {:induction false} RunAnswers(es: seq<Event>)
    ensures Answered(Steps(es))
  {
    if es != [] {
      RunAnswers(es[..|es| - 1]);
      RunKeeps(es[..|es| - 1]);
      StepAnswers(Steps(es[..|es| - 1]), es[|es| - 1]);
    }
  }

  lemma LastStep(es: seq<Event>, more: seq<Event>)
    requires more != []
    ensures Steps(es + more) == Step(Steps(es + more[..|more| - 1]), more[|more| - 1])
  {
    assert (es + more)[..|es + more| - 1] == es + more[..|more| - 1];
  }

  lemma {:induction false} RunOnward(es: seq<Event>, more: seq<Event>)
    ensures Onward(Steps(es), Steps(es + more))
    decreases |more|
  {
    if more == [] {
      assert es + more == es;
    } else {
      var m := more[..|more| - 1];
      RunOnward(es, m);
      RunKeeps(es + m);
      RunAnswers(es + m);
      StepAnswers(Steps(es + m), more[|more| - 1]);
      LastStep(es, more);
    }
  }

  // ----- what the table is for -----

  /** At every unlock the table and the clients' id sets tell the same, and a request never moves
      to another client. */
  lemma {:induction false} TableAgrees(es: seq<Event>, c: nat, id: Id)
    requires c < |Steps(es).conns|
    ensures var s := Steps(es);
      (id in s.pending && s.pending[id].conn == c) <==> id in s.conns[c].ids
  {
    RunKeeps(es);
    assert IdOk(Steps(es), id) && ConnOk(Steps(es), c);
  }

  /** Every request ever forwarded is either still in the table or was won exactly once, and no
      later step changes its winner. */
  lemma {:induction false} OneWinner(es: seq<Event>, more: seq<Event>, id: Id)
    requires id in Steps(es).owner
    ensures id in Steps(es).pending <==> id !in Steps(es).winner
    ensures id in Steps(es).winner ==>
              && id in Steps(es + more).winner && Steps(es + more).winner[id] == Steps(es).winner[id]
              && id !in Steps(es + more).pending
  {
    RunKeeps(es);
    RunKeeps(es + more);
    RunOnward(es, more);
    assert IdOk(Steps(es), id) && IdOk(Steps(es + more), id);
  }

  /** `reply` is called once for each request that a reply, its timeout or a refusal won, for the
      client that sent it, and never for one that went with the connection or is still pending. */
  lemma {:induction false} OneReply(es: seq<Event>, id: Id)
    requires id in Steps(es).owner
    ensures var s := Steps(es);
      && (forall k :: 0 <= k < |s.tasks| && s.tasks[k].answers == Some(id) ==> s.tasks[k].conn == s.owner[id])
      && (forall j, k :: 0 <= j < k < |s.tasks| ==> !(s.tasks[j].answers == s.tasks[k].answers == Some(id)))
      && ((exists k :: 0 <= k < |s.tasks| && s.tasks[k].answers == Some(id)) <==>
           id in s.winner && !s.winner[id].ByDisconnect?)
  {
    RunAnswers(es);
  }

  // ----- lines -----

  predicate Undecided(s: Server, k: nat) {
    k < |s.tasks| && s.tasks[k].phase.Encoding?
  }

  /** The line a step writes, by the task whose line it is. */
  function LineOf(s: Server, e: Event): seq<nat> {
    if e.Advance? && Undecided(s, e.k) && e.k < |Step(s, e).tasks| && Step(s, e).tasks[e.k].phase.Writing?
    then [e.k] else []
  }

  /** The lines of a run, in the order their writes began. */
  function Lines(es: seq<Event>): seq<nat> {
    if es == [] then [] else Lines(es[..|es| - 1]) + LineOf(Steps(es[..|es| - 1]), es[|es| - 1])
  }

  /** The line of task `k` could not be encoded. */
  ghost predicate NotEncoded(es: seq<Event>, k: nat) {
    exists i: nat :: i < |es| && es[i] == Advance(k, true) && Undecided(Steps(es[..i]), k)
  }

  predicate ClientClosed(s: Server, k: nat) {
    k < |s.tasks| && s.tasks[k].conn < |s.conns| && s.conns[s.tasks[k].conn].closed
  }

  /** Only its own step decides a task, and it writes unless the encoding fails or the client is closed. */
  ghost predicate Decides(s: Server, e: Event, k: nat)
    requires k < |s.tasks|
  {
    var n := Step(s, e);
    && k < |n.tasks| && n.tasks[k].conn == s.tasks[k].conn
    && (Undecided(n, k) ==> Undecided(s, k))
    && (Undecided(s, k) && !Undecided(n, k) ==>
          e.Advance? && e.k == k && (e.fails || ClientClosed(s, k) || n.tasks[k].phase.Writing?))
    && (e == Advance(k, true) ==> !Undecided(n, k) && LineOf(s, e) == [])
    && (ClientClosed(s, k) ==> ClientClosed(n, k))
  }

  /** A task after its next step, given whether its client's mutex is free and its client closed. */
  function NextTask(t: Task, free: bool, closed: bool, fails: bool): Task {
    match t.phase
    case Encoding =>
      if fails then t.(phase := Done)
      else if !free then t
      else if closed then t.(phase := Done)
      else t.(phase := Writing, counted := true)
    case Writing => if fails then t.(phase := Dropping) else t.(phase := Done, counted := false)
    case Dropping => t.(phase := Shutting)
    case Shutting => if !free then t else t.(phase := Done, counted := false)
    case Done => t
  }

  lemma AdvanceMoves(s: Server, j: nat, fails: bool)
    requires j < |s.tasks| && s.tasks[j].conn < |s.conns|
    ensures var t := s.tasks[j]; var n := DoAdvance(s, j, fails);
      && n.tasks == s.tasks[j := NextTask(t, Free(s, t.conn), s.conns[t.conn].closed, fails)]
      && |n.conns| == |s.conns|
      && forall c :: 0 <= c < |s.conns| && s.conns[c].closed ==> n.conns[c].closed
  {
    match s.tasks[j].phase
    case Dropping => DropLeavesTasks(s, s.tasks[j].conn);
    case Shutting => ShutMoves(s, j, fails);
    case Encoding => WriteMoves(s, j, fails);
    case Writing => WriteMoves(s, j, fails);
    case Done => assert DoAdvance(s, j, fails) == s;
  }

  lemma WriteMoves(s: Server, j: nat, fails: bool)
    requires j < |s.tasks| && s.tasks[j].conn < |s.conns| && (s.tasks[j].phase.Encoding? || s.tasks[j].phase.Writing?)
    ensures var t := s.tasks[j]; var n := DoAdvance(s, j, fails);
      && n.tasks == s.tasks[j := NextTask(t, Free(s, t.conn), s.conns[t.conn].closed, fails)]
      && n.conns == s.conns
  {}

  lemma ShutMoves(s: Server, j: nat, fails: bool)
    requires j < |s.tasks| && s.tasks[j].conn < |s.conns| && s.tasks[j].phase.Shutting?
    ensures var t := s.tasks[j]; var n := DoAdvance(s, j, fails);
      && n.tasks == s.tasks[j := NextTask(t, Free(s, t.conn), s.conns[t.conn].closed, fails)]
      && |n.conns| == |s.conns|
      && forall c :: 0 <= c < |s.conns| && s.conns[c].closed ==> n.conns[c].closed
  {}

  lemma AdvanceDecides(s: Server, j: nat, fails: bool, k: nat)
    requires Inv(s) && k < |s.tasks|
    ensures Decides(s, Advance(j, fails), k)
  {
    assert TaskOk(s, k);
    if j < |s.tasks| {
      assert TaskOk(s, j);
      AdvanceMoves(s, j, fails);
    }
  }

  lemma DropLeavesTasks(s: Server, c: nat)
    requires c < |s.conns|
    ensures var n := Drop(s, c);
      && n.tasks == s.tasks && |n.conns| == |s.conns|
      && forall d :: 0 <= d < |s.conns| ==> n.conns[d].closed == s.conns[d].closed
  {}

  /** Nothing but a step of a task touches a task there is, and clients stay closed. */
  ghost predicate Spares(s: Server, n: Server) {
    && s.tasks <= n.tasks
    && |s.conns| <= |n.conns|
    && (forall c :: 0 <= c < |s.conns| ==> n.conns[c].closed == s.conns[c].closed)
    && forall k :: |s.tasks| <= k < |n.tasks| && n.tasks[k].answers.Some? ==> n.tasks[k].phase.Encoding?
  }

  lemma WinSpares(s: Server, id: Id, w: Winner)
    ensures Spares(s, Win(s, id, w))
  {}

  lemma RegisterSpares(s: Server, c: nat, id: Id)
    ensures Spares(s, DoRegister(s, c, id))
  {}

  lemma ArmSpares(s: Server, c: nat)
    ensures Spares(s, DoArm(s, c))
  {}

  lemma RecordStopSpares(s: Server, c: nat)
    ensures Spares(s, DoRecordStop(s, c))
  {}

  lemma RefuseSpares(s: Server, c: nat)
    ensures Spares(s, DoRefuse(s, c))
  {}

  lemma HangupSpares(s: Server, c: nat)
    ensures Spares(s, DoHangup(s, c))
  {}

  lemma ProceedSpares(s: Server, c: nat)
    ensures Spares(s, DoProceed(s, c))
  {}

  lemma FrameSpares(s: Server, c: nat, tooLarge: bool)
    ensures Spares(s, DoFrame(s, c, tooLarge))
  {
    if c < |s.conns| && s.conns[c].serve.Recorded? { WinSpares(s, s.conns[c].serve.id, ByRefusal(|s.tasks|)); }
  }

  lemma StepSpares(s: Server, e: Event)
    requires !e.Advance?
    ensures Spares(s, Step(s, e))
  {
    match e
    case Register(c, id) => RegisterSpares(s, c, id);
    case Arm(c) => ArmSpares(s, c);
    case RecordStop(c) => RecordStopSpares(s, c);
    case Frame(c, tooLarge) => FrameSpares(s, c, tooLarge);
    case Refuse(c) => RefuseSpares(s, c);
    case Hangup(c) => HangupSpares(s, c);
    case Proceed(c) => ProceedSpares(s, c);
    case Expire(id) => if id in s.timers { WinSpares(s.(timers := s.timers[id := Ran]), id, ByTimeout(|s.tasks|)); }
    case Claim(id) => WinSpares(s, id, ByReply(|s.tasks|));
    case _ =>
  }

  lemma StepDecides(s: Server, e: Event, k: nat)
    requires Inv(s) && k < |s.tasks|
    ensures Decides(s, e, k)
  {
    if e.Advance? {
      AdvanceDecides(s, e.k, e.fails, k);
    } else {
      StepSpares(s, e);
    }
  }

  lemma NewTasksEncode(s: Server, e: Event, k: nat)
    requires Inv(s) && |s.tasks| <= k < |Step(s, e).tasks|
    ensures Step(s, e).tasks[k].answers.Some? ==> Undecided(Step(s, e), k)
  {
    if e.Advance? {
      if e.k < |s.tasks| {
        assert TaskOk(s, e.k);
        AdvanceMoves(s, e.k, e.fails);
      }
    } else {
      StepSpares(s, e);
    }
  }

  /** The line of task `k` against the lines so far: written by a task that is decided, and left out
      only for a reason. */
  predicate LineAt(s: Server, lines: seq<nat>, failed: bool, k: nat) {
    && (k in lines || failed ==> k < |s.tasks| && !Undecided(s, k))
    && !(k in lines && failed)
    && (k < |s.tasks| && s.tasks[k].answers.Some? && !Undecided(s, k) && k !in lines ==> failed || ClientClosed(s, k))
  }

  ghost predicate LineOk(es: seq<Event>, k: nat) {
    LineAt(Steps(es), Lines(es), NotEncoded(es, k), k)
  }

  lemma EncodedNext(es: seq<Event>, e: Event, k: nat)
    ensures NotEncoded(es + [e], k) <==> NotEncoded(es, k) || (e == Advance(k, true) && Undecided(Steps(es), k))
  {
    var all := es + [e];
    assert forall i: nat :: i <= |es| ==> all[..i] == es[..i];
    assert es[..|es|] == es;
    if NotEncoded(es, k) {
      var i: nat :| i < |es| && es[i] == Advance(k, true) && Undecided(Steps(es[..i]), k);
      assert all[i] == es[i];
    }
    if e == Advance(k, true) && Undecided(Steps(es), k) { assert all[|es|] == e; }
    if NotEncoded(all, k) {
      var i: nat :| i < |all| && all[i] == Advance(k, true) && Undecided(Steps(all[..i]), k);
      assert i < |es| ==> es[i] == all[i];
    }
  }

  lemma LastLine(es: seq<Event>, e: Event)
    ensures Steps(es + [e]) == Step(Steps(es), e) && Lines(es + [e]) == Lines(es) + LineOf(Steps(es), e)
  {
    assert (es + [e])[..|es|] == es;
  }

  lemma NextLine(s: Server, e: Event, lines: seq<nat>, failed: bool, k: nat)
    requires Inv(s) && LineAt(s, lines, failed, k)
    ensures LineAt(Step(s, e), lines + LineOf(s, e), failed || (e == Advance(k, true) && Undecided(s, k)), k)
  {
    if k < |s.tasks| {
      StepDecides(s, e, k);
      DecidedLine(s, e, k);
    } else if k < |Step(s, e).tasks| {
      NewTasksEncode(s, e, k);
    }
  }

  lemma DecidedLine(s: Server, e: Event, k: nat)
    requires Inv(s) && k < |s.tasks|
    ensures k in LineOf(s, e) <==> e.Advance? && Undecided(s, k) && e.k == k && Step(s, e).tasks[k].phase.Writing?
    ensures k < |Step(s, e).tasks| && Step(s, e).tasks[k].answers == s.tasks[k].answers
  {
    if !e.Advance? {
      StepSpares(s, e);
    } else if e.k < |s.tasks| {
      assert TaskOk(s, e.k);
      AdvanceMoves(s, e.k, e.fails);
    }
  }

  lemma LineOkNext(es: seq<Event>, e: Event, k: nat)
    requires Inv(Steps(es)) && LineOk(es, k)
    ensures LineOk(es + [e], k)
  {
    NextLine(Steps(es), e, Lines(es), NotEncoded(es, k), k);
    LastLine(es, e);
    EncodedNext(es, e, k);
  }

  lemma {:induction false} LinesOk(es: seq<Event>, k: nat)
    ensures LineOk(es, k)
  {
    if es != [] {
      var before, e := es[..|es| - 1], es[|es| - 1];
      LinesOk(before, k);
      RunKeeps(before);
      LineOkNext(before, e, k);
      assert before + [e] == es;
    }
  }

  lemma {:induction false} LinesDiffer(es: seq<Event>)
    ensures forall i, j :: 0 <= i < j < |Lines(es)| ==> Lines(es)[i] != Lines(es)[j]
  {
    if es != [] {
      var before := es[..|es| - 1];
      LinesDiffer(before);
      var last := LineOf(Steps(before), es[|es| - 1]);
      if last != [] {
        LinesOk(before, last[0]);
      }
    }
  }

  predicate LineFor(s: Server, lines: seq<nat>, i: nat, id: Id) {
    i < |lines| && lines[i] < |s.tasks| && s.tasks[lines[i]].answers == Some(id)
  }

  /** A reply, its timeout or a refusal took the request. */
  predicate Won(s: Server, id: Id) {
    id in s.winner && !s.winner[id].ByDisconnect?
  }

  /** At most one line for the request, by the winner's call of `reply` and to its client; and that
      line once the call has come to its write, unless the encoding failed or the client is closed. */
  ghost predicate OneLineAt(s: Server, lines: seq<nat>, failed: bool, id: Id)
    requires id in s.owner
  {
    && (forall i: nat, j: nat :: LineFor(s, lines, i, id) && LineFor(s, lines, j, id) ==> i == j)
    && (forall i: nat :: LineFor(s, lines, i, id) ==>
          s.tasks[lines[i]].conn == s.owner[id] && Won(s, id) && s.winner[id].task == lines[i] && !failed)
    && (Won(s, id) && !Undecided(s, s.winner[id].task) ==>
          || (exists i: nat :: LineFor(s, lines, i, id))
          || failed
          || (s.owner[id] < |s.conns| && s.conns[s.owner[id]].closed))
  }

  lemma OneLine(s: Server, lines: seq<nat>, failed: bool, id: Id)
    requires Answered(s) && id in s.owner
    requires forall i, j :: 0 <= i < j < |lines| ==> lines[i] != lines[j]
    requires Won(s, id) ==> LineAt(s, lines, failed, s.winner[id].task)
    ensures OneLineAt(s, lines, failed, id)
  {
    if Won(s, id) && s.winner[id].task in lines {
      var i: nat :| i < |lines| && lines[i] == s.winner[id].task;
      assert LineFor(s, lines, i, id);
    }
  }

  /** A request gets at most one line, written to the client that sent it, and only once a reply,
      its timeout or a refusal won it. It gets that line as soon as the winner's call of `reply` has
      come to its write, unless the line could not be encoded or the client was closed. */
  lemma {:induction false} OneAnswer(es: seq<Event>, id: Id)
    requires id in Steps(es).owner
    ensures var s := Steps(es);
      OneLineAt(s, Lines(es), Won(s, id) && NotEncoded(es, s.winner[id].task), id)
  {
    RunAnswers(es);
    LinesDiffer(es);
    if Won(Steps(es), id) { LinesOk(es, Steps(es).winner[id].task); }
    OneLine(Steps(es), Lines(es), Won(Steps(es), id) && NotEncoded(es, Steps(es).winner[id].task), id);
  }

  /** Past the second section of its `forward`, a request in the table has its timer armed or its
      callback on the way, and a timer still armed has a request in the table to end. */
  lemma {:induction false} TimersMatch(es: seq<Event>, id: Id)
    requires id in Steps(es).owner && !InForward(Steps(es), id)
    ensures var s := Steps(es);
      && (id in s.pending ==> s.pending[id].recorded && Live(s, id))
      && (id in s.timers && s.timers[id].Armed? ==> id in s.pending)
  {
    RunKeeps(es);
    assert IdOk(Steps(es), id);
  }

  predicate Gone(s: Server, c: nat) {
    && (forall id :: id in s.pending ==> s.pending[id].conn != c)
    && (forall id :: id in s.timers && id in s.owner && s.owner[id] == c ==> !s.timers[id].Armed?)
    && Unwritten(c, s.tasks)
  }

  lemma ReturnedIsGone(s: Server, c: nat)
    requires Inv(s) && ReturnedAt(s, c)
    ensures Gone(s, c)
  {
    assert ConnOk(s, c);
    forall id | id in s.owner && s.owner[id] == c
      ensures id !in s.pending && (id in s.timers ==> !s.timers[id].Armed?)
    {
      assert IdOk(s, id);
    }
    forall id | id in s.pending ensures s.pending[id].conn != c { assert IdOk(s, id); }
  }

  /** Only its own reader moves where `serve` is. */
  lemma TakeLeavesServe(s: Server, id: Id, w: Winner, c: nat)
    requires c < |s.conns|
    ensures |Win(s, id, w).conns| == |s.conns| && Win(s, id, w).conns[c].serve == s.conns[c].serve
  {}

  lemma AdvanceLeavesServe(s: Server, k: nat, fails: bool, c: nat)
    requires c < |s.conns|
    ensures |DoAdvance(s, k, fails).conns| == |s.conns| && DoAdvance(s, k, fails).conns[c].serve == s.conns[c].serve
  {
    if k < |s.tasks| && s.tasks[k].conn < |s.conns| {
      match s.tasks[k].phase
      case Dropping => assert DoAdvance(s, k, fails).conns == Drop(s, s.tasks[k].conn).conns;
      case Shutting => ShutLeavesServe(s, k, fails, c);
      case _ => assert DoAdvance(s, k, fails).conns == s.conns;
    }
  }

  lemma ShutLeavesServe(s: Server, k: nat, fails: bool, c: nat)
    requires c < |s.conns| && k < |s.tasks| && s.tasks[k].phase.Shutting?
    ensures |DoAdvance(s, k, fails).conns| == |s.conns| && DoAdvance(s, k, fails).conns[c].serve == s.conns[c].serve
  {}

  lemma ReaderStaysReturned(s: Server, e: Event, c: nat)
    requires ReturnedAt(s, c)
    requires !e.Expire? && !e.Claim? && !e.Frame? && !e.Advance?
    ensures ReturnedAt(Step(s, e), c)
  {
    match e
    case Register(d, id) => ForwardLeavesReturned(s, d, id, c);
    case Arm(d) => ForwardLeavesReturned(s, d, 0, c);
    case RecordStop(d) => ForwardLeavesReturned(s, d, 0, c);
    case Refuse(d) => RefuseLeavesReturned(s, d, c);
    case Hangup(d) => HangupLeavesReturned(s, d, c);
    case Proceed(d) => ProceedLeavesReturned(s, d, c);
    case _ =>
  }

  lemma RefuseLeavesReturned(s: Server, d: nat, c: nat)
    requires ReturnedAt(s, c)
    ensures ReturnedAt(DoRefuse(s, d), c)
  {}

  lemma HangupLeavesReturned(s: Server, d: nat, c: nat)
    requires ReturnedAt(s, c)
    ensures ReturnedAt(DoHangup(s, d), c)
  {}

  lemma ProceedLeavesReturned(s: Server, d: nat, c: nat)
    requires ReturnedAt(s, c)
    ensures ReturnedAt(DoProceed(s, d), c)
  {}

  lemma ForwardLeavesReturned(s: Server, d: nat, id: Id, c: nat)
    requires ReturnedAt(s, c)
    ensures ReturnedAt(DoRegister(s, d, id), c) && ReturnedAt(DoArm(s, d), c) && ReturnedAt(DoRecordStop(s, d), c)
  {}

  lemma FrameLeavesReturned(s: Server, d: nat, tooLarge: bool, c: nat)
    requires ReturnedAt(s, c)
    ensures ReturnedAt(DoFrame(s, d, tooLarge), c)
  {
    if d < |s.conns| && s.conns[d].serve.Recorded? {
      TakeLeavesServe(s, s.conns[d].serve.id, ByRefusal(|s.tasks|), c);
    }
  }

  lemma StepStaysReturned(s: Server, e: Event, c: nat)
    requires ReturnedAt(s, c)
    ensures ReturnedAt(Step(s, e), c)
  {
    match e
    case Expire(id) =>
      if id in s.timers { TakeLeavesServe(s.(timers := s.timers[id := Ran]), id, ByTimeout(|s.tasks|), c); }
    case Claim(id) => TakeLeavesServe(s, id, ByReply(|s.tasks|), c);
    case Frame(d, tooLarge) => FrameLeavesReturned(s, d, tooLarge, c);
    case Advance(k, fails) => AdvanceLeavesServe(s, k, fails, c);
    case _ => ReaderStaysReturned(s, e, c);
  }

  predicate ReturnedAt(s: Server, c: nat) {
    c < |s.conns| && s.conns[c].serve.Returned?
  }

  lemma {:induction false} StaysReturned(es: seq<Event>, more: seq<Event>, c: nat)
    requires ReturnedAt(Steps(es), c)
    ensures ReturnedAt(Steps(es + more), c)
    decreases |more|
  {
    if more == [] {
      assert es + more == es;
    } else {
      StaysReturned(es, more[..|more| - 1], c);
      LastStep(es, more);
      StepStaysReturned(Steps(es + more[..|more| - 1]), more[|more| - 1], c);
    }
  }

  /** Once `serve` has returned for a client, nothing pending, no armed timer and no counted write
      is left of it, then and ever after, whoever else closed it while `forward` ran. */
  lemma {:induction false} NothingOutlivesServe(es: seq<Event>, more: seq<Event>, c: nat)
    requires ReturnedAt(Steps(es), c)
    ensures Gone(Steps(es + more), c)
  {
    StaysReturned(es, more, c);
    RunKeeps(es + more);
    ReturnedIsGone(Steps(es + more), c);
  }

  // ----- the code -----

  /** One turn of the loop in `closeClient`. */
  lemma EndOneWinner(pending: map<Id, Request>, winner: map<Id, Winner>, gone: set<Id>, id: Id)
    ensures EndWinners(pending, winner, gone + {id})
         == if id in pending then EndWinners(pending, winner, gone)[id := ByDisconnect]
           else EndWinners(pending, winner, gone)
  {}

  lemma EndNone(pending: map<Id, Request>, winner: map<Id, Winner>, timers: map<Id, Timer>)
    ensures EndWinners(pending, winner, {}) == winner
    ensures EndTimers(pending, timers, {}) == timers
  {}

  lemma EndOneTimer(pending: map<Id, Request>, timers: map<Id, Timer>, gone: set<Id>, id: Id)
    requires id !in gone
    ensures EndTimers(pending, timers, gone + {id})
         == if id in pending && pending[id].recorded then StopTimer(EndTimers(pending, timers, gone), id)
            else EndTimers(pending, timers, gone)
  {}

  /** The fields of `Server`, of its `clientConn`s and `request`s, and what goroutines hold. */
  class Table {
    var pending: map<Id, Request>
    var timers: map<Id, Timer>
    var owner: map<Id, nat>
    var winner: map<Id, Winner>
    var conns: seq<Conn>
    var tasks: seq<Task>
    var closing: bool

    constructor ()
      ensures View() == START && Inv(View())
    {
      pending, timers, owner, winner := map[], map[], map[], map[];
      conns, tasks, closing := [], [], false;
      new;
      RunKeeps([]);
    }

    function View(): Server
      reads this
    {
      Server(pending, timers, owner, winner, conns, tasks, closing)
    }

    /** The sections of `forward`; `serve` is at the one its event names. */
    method Forward(c: nat, id: Id)
      requires Inv(View())
      requires c < |conns| && conns[c].serve.Reading? && id !in owner
      modifies this
      ensures View() == Step(old(View()), Register(c, id)) && Inv(View())
    {
      RegisterKeeps(View(), c, id);
      pending := pending[id := Request(c, false)];
      owner := owner[id := c];
      conns := conns[c := Conn(conns[c].ids + {id}, conns[c].closed, Registered(id))];
    }

    method AfterFunc(c: nat)
      requires Inv(View())
      requires c < |conns| && conns[c].serve.Registered?
      modifies this
      ensures View() == Step(old(View()), Arm(c)) && Inv(View())
    {
      ArmKeeps(View(), c);
      var id := conns[c].serve.id;
      timers := timers[id := Armed];
      conns := conns[c := conns[c].(serve := Timed(id))];
    }

    method Stop(id: Id)
      modifies `timers
      ensures timers == StopTimer(old(timers), id)
    {
      if id in timers && timers[id].Armed? { timers := timers[id := Stopped]; }
    }

    method KeepStop(c: nat)
      requires Inv(View())
      requires c < |conns| && conns[c].serve.Timed?
      modifies this
      ensures View() == Step(old(View()), RecordStop(c)) && Inv(View())
    {
      RecordStopKeeps(View(), c);
      var id := conns[c].serve.id;
      conns := conns[c := conns[c].(serve := Recorded(id))];
      if id in pending {
        pending := pending[id := pending[id].(recorded := true)];
      } else {
        Stop(id);
      }
    }

    method TakeLocked(id: Id, w: Winner) returns (req: Option<Request>)
      requires Inv(View())
      modifies `pending, `timers, `winner, `conns
      ensures req == if id in old(pending) then Some(old(pending)[id]) else None
      ensures View() == if id in old(pending) then Take(old(View()), id, w) else old(View())
    {
      if id !in pending { return None; }
      var r := pending[id];
      assert IdOk(View(), id);
      pending := pending - {id};
      winner := winner[id := w];
      conns := conns[r.conn := conns[r.conn].(ids := conns[r.conn].ids - {id})];
      if r.recorded { Stop(id); }
      req := Some(r);
    }

    /** `reply` on a goroutine of its own, or on the one that took the request. */
    method Reply(c: nat, answers: Option<Id>)
      modifies `tasks
      ensures View() == Spawn(old(View()), c, Encoding, answers)
    {
      tasks := tasks + [Task(c, Encoding, false, answers)];
    }

    method TakeAndReply(id: Id, w: Winner) returns (took: bool)
      requires Inv(View())
      modifies this
      ensures took == (id in old(pending)) && id !in pending
      ensures took ==>
        && id in winner && winner[id] == w
        && tasks == old(tasks) + [Task(old(pending)[id].conn, Encoding, false, Some(id))]
      ensures View() == Win(old(View()), id, w) && Inv(View())
    {
      WinKeeps(View(), id, w);
      assert IdOk(View(), id);
      var req := TakeLocked(id, w);
      took := req.Some?;
      if took { Reply(req.value.conn, Some(id)); }
    }

    method ClaimReply(id: Id) returns (took: bool)
      requires Inv(View())
      modifies this
      ensures took == (id in old(pending)) && id !in pending
      ensures took ==>
        && id in winner && winner[id] == ByReply(|old(tasks)|)
        && tasks == old(tasks) + [Task(old(pending)[id].conn, Encoding, false, Some(id))]
      ensures !took ==> View() == old(View())
      ensures View() == Step(old(View()), Claim(id)) && Inv(View())
    {
      took := TakeAndReply(id, ByReply(|tasks|));
    }

    method ExpireRequest(id: Id)
      requires Inv(View())
      requires id in timers && timers[id].Firing?
      modifies this
      ensures View() == Step(old(View()), Expire(id)) && Inv(View())
    {
      ghost var was := View();
      ExpireKeeps(was, id);
      var took := TakeAndReply(id, ByTimeout(|tasks|));
      timers := timers[id := Ran];
      assert IdOk(was, id);
      assert View() == DoExpire(was, id);
    }

    method RefuseFrame(c: nat)
      requires Inv(View())
      requires c < |conns| && conns[c].serve.Recorded?
      modifies this
      ensures View() == Step(old(View()), Frame(c, true)) && Inv(View())
    {
      ghost var was := View();
      FrameKeeps(was, c, true);
      assert ConnOk(was, c);
      var id, k := conns[c].serve.id, |tasks|;
      assert IdOk(was, id);
      TakeLeavesServe(was, id, ByRefusal(k), c);
      var took := TakeAndReply(id, ByRefusal(k));
      conns := conns[c := conns[c].(serve := if took then Replying(k) else Reading)];
    }

    /** The loop of `closeClient`. */
    method EndRequests(ids: set<Id>)
      modifies `pending, `timers, `winner
      ensures pending == old(pending) - ids
      ensures winner == EndWinners(old(pending), old(winner), ids)
      ensures timers == EndTimers(old(pending), old(timers), ids)
    {
      var left := ids;
      ghost var p, w, t := pending, winner, timers;
      EndNone(p, w, t);
      assert ids - left == {};
      while left != {}
        invariant left <= ids
        invariant pending == p - (ids - left)
        invariant winner == EndWinners(p, w, ids - left)
        invariant timers == EndTimers(p, t, ids - left)
        decreases |left|
      {
        var id :| id in left;
        ghost var done := ids - left;
        EndOneWinner(p, w, done, id);
        EndOneTimer(p, t, done, id);
        EndRequest(id);
        left := left - {id};
        assert ids - left == done + {id};
      }
      assert ids - left == ids;
    }

    method EndRequest(id: Id)
      modifies `pending, `timers, `winner
      ensures pending == old(pending) - {id}
      ensures winner == if id in old(pending) then old(winner)[id := ByDisconnect] else old(winner)
      ensures timers == if id in old(pending) && old(pending)[id].recorded then StopTimer(old(timers), id)
        else old(timers)
    {
      if id in pending {
        if pending[id].recorded { Stop(id); }
        winner := winner[id := ByDisconnect];
        pending := pending - {id};
      }
    }

    /** The section of `closeClient` under the server's mutex. */
    method CloseClient(c: nat)
      requires Inv(View())
      requires c < |conns|
      modifies `pending, `timers, `winner, `conns
      ensures View() == Drop(old(View()), c) && Inv(View())
    {
      DropKeeps(View(), c);
      EndRequests(conns[c].ids);
      conns := conns[c := conns[c].(ids := {})];
    }

    /** `reply` once its line is encoded (`fails`: it could not be): nothing is written to a client
        that is closed, and a write is counted while the connection's mutex is held. */
    method LockForWrite(k: nat, fails: bool)
      requires Inv(View())
      requires k < |tasks| && tasks[k].phase.Encoding? && (fails || Free(View(), tasks[k].conn))
      modifies `tasks
      ensures View() == Step(old(View()), Advance(k, fails)) && Inv(View())
    {
      AdvanceKeeps(View(), k, fails);
      assert TaskOk(View(), k);
      var t := tasks[k];
      if fails || conns[t.conn].closed {
        tasks := tasks[k := t.(phase := Done)];
      } else {
        tasks := tasks[k := t.(phase := Writing, counted := true)];
      }
    }

    /** The write is over; a client that failed it is closed before the count goes down. */
    method UnlockAfterWrite(k: nat, fails: bool)
      requires Inv(View())
      requires k < |tasks| && tasks[k].phase.Writing?
      modifies `tasks
      ensures View() == Step(old(View()), Advance(k, fails)) && Inv(View())
    {
      AdvanceKeeps(View(), k, fails);
      assert TaskOk(View(), k);
      var t := tasks[k];
      tasks := tasks[k := if fails then t.(phase := Dropping) else t.(phase := Done, counted := false)];
    }

    /** The last section of `closeClient`; a reply that closed its client is over with it. */
    method SetClosed(k: nat)
      requires Inv(View())
      requires k < |tasks| && tasks[k].phase.Shutting? && Free(View(), tasks[k].conn)
      modifies `tasks, `conns
      ensures View() == Step(old(View()), Advance(k, false)) && Inv(View())
    {
      AdvanceKeeps(View(), k, false);
      assert TaskOk(View(), k);
      var t := tasks[k];
      conns := conns[t.conn := conns[t.conn].(closed := true)];
      tasks := tasks[k := t.(phase := Done, counted := false)];
    }
  }
}

/**
 The native messaging link (extension/src/port.ts): one port, the requests sent over it, and
 reconnects with exponential backoff. Every callback runs to its end; ports, timers and messages
 come in any order, those of a port that is long gone included.
 */
module Link {
  import opened Base

  type Port = nat
  type Id = nat

  const MAX_ATTEMPTS := 10
  const INITIAL_DELAY := 1000.0
  const MAX_DELAY := 30000.0

  function Power(n: nat): real {
    if n == 0 then 1.0 else 1.5 * Power(n - 1)
  }

  /** The delay before reconnect number `n`, in milliseconds, the first being 0. */
  function Delay(n: nat): real {
    var d := INITIAL_DELAY * Power(n);
    if d < MAX_DELAY then d else MAX_DELAY
  }

  function Total(delays: seq<real>): real {
    if delays == [] then 0.0 else Total(delays[..|delays| - 1]) + delays[|delays| - 1]
  }

  datatype Outcome = Resolved | Refused | TimedOut | NotConnected | NotPosted | Disconnected

  /** `timers` are those of `send`; `again` is whether a promise was ever settled twice; `delays` are
      the reconnects scheduled since `attempt` was last set to zero. */
  datatype State = State(
    port: Option<Port>,
    attempt: nat,
    reconnect: Option<real>,
    stable: bool,
    pending: set<Id>,
    timers: set<Id>,
    outcomes: map<Id, Outcome>,
    again: bool,
    delays: seq<real>)

  const START := State(None, 0, None, false, {}, {}, map[], false, [])

  datatype Message = Command | Answer(id: Id, success: bool) | Other

  datatype Event =
    | Connect(port: Port, ok: bool)
    | Send(id: Id, posted: bool)
    | Receive(port: Port, message: Message)
    | Disconnect(port: Port)
    | StableFires
    | ReconnectFires(port: Port, ok: bool)
    | SendTimesOut(id: Id)

  function All(ids: set<Id>, o: Outcome): map<Id, Outcome> {
    map id | id in ids :: o
  }

  function Settle(s: State, ids: set<Id>, o: Outcome): State {
    s.(outcomes := s.outcomes + All(ids, o), again := s.again || Twice(s.outcomes, ids))
  }

  predicate Twice(outcomes: map<Id, Outcome>, ids: set<Id>) {
    exists id :: id in ids && id in outcomes
  }

  function Schedule(s: State): State {
    if s.port.Some? || s.reconnect.Some? then s
    else if s.attempt >= MAX_ATTEMPTS then s.(attempt := 0, delays := [])
    else s.(attempt := s.attempt + 1, reconnect := Some(Delay(s.attempt)), delays := s.delays + [Delay(s.attempt)])
  }

  function DoConnect(s: State, port: Port, ok: bool): State {
    if s.port.Some? then s
    else if ok then s.(port := Some(port), reconnect := None, stable := true)
    else Schedule(s)
  }

  function DoSend(s: State, id: Id, posted: bool): State {
    if id in s.pending || id in s.outcomes then s    // randomUUID never repeats
    else if s.port.None? then Settle(s, {id}, NotConnected)
    else if posted then s.(pending := s.pending + {id}, timers := s.timers + {id})
    else Settle(s, {id}, NotPosted)
  }

  function MarkStable(s: State): State {
    if s.stable then s.(stable := false, attempt := 0, delays := []) else s
  }

  function ResolvePending(s: State, id: Id, success: bool): State {
    if id !in s.pending then s
    else Settle(s.(pending := s.pending - {id}, timers := s.timers - {id}), {id}, if success then Resolved else Refused)
  }

  function DoReceive(s: State, port: Port, m: Message): State {
    var s' := if s.port == Some(port) then MarkStable(s) else s;
    if m.Answer? then ResolvePending(s', m.id, m.success) else s'
  }

  /** `rejectPending` as far as these requests go. */
  function Reject(s: State, ids: set<Id>): State {
    Settle(s.(timers := s.timers - ids), ids, Disconnected)
  }

  function RejectPending(s: State): State {
    Reject(s, s.pending).(pending := {})
  }

  function DoDisconnect(s: State, port: Port): State {
    if s.port != Some(port) then s else Schedule(RejectPending(s.(port := None, stable := false)))
  }

  function DoSendTimesOut(s: State, id: Id): State {
    if id !in s.timers then s
    else
      var fired := s.(timers := s.timers - {id});
      if id in s.pending then Settle(fired.(pending := s.pending - {id}), {id}, TimedOut) else fired
  }

  function Step(s: State, e: Event): State {
    match e
    case Connect(port, ok) => DoConnect(s, port, ok)
    case Send(id, posted) => DoSend(s, id, posted)
    case Receive(port, m) => DoReceive(s, port, m)
    case Disconnect(port) => DoDisconnect(s, port)
    case StableFires => MarkStable(s)
    case ReconnectFires(port, ok) => if s.reconnect.Some? then DoConnect(s.(reconnect := None), port, ok) else s
    case SendTimesOut(id) => DoSendTimesOut(s, id)
  }

  function Steps(es: seq<Event>): State {
    if es == [] then START else Step(Steps(es[..|es| - 1]), es[|es| - 1])
  }

  // ----- the invariant -----

  ghost predicate RequestsOk(s: State) {
    && s.timers == s.pending && !s.again
    && (forall id :: id in s.pending ==> id !in s.outcomes)
    && (s.port.None? ==> s.pending == {})
  }

  ghost predicate BackoffOk(s: State) {
    && |s.delays| == s.attempt <= MAX_ATTEMPTS
    && (forall i :: 0 <= i < |s.delays| ==> s.delays[i] == Delay(i))
    && (s.reconnect.Some? ==> s.attempt > 0 && s.reconnect.value == Delay(s.attempt - 1))
  }

  ghost predicate Inv(s: State) {
    && RequestsOk(s) && BackoffOk(s)
    && !(s.port.Some? && s.reconnect.Some?)
    && (s.stable ==> s.port.Some?)
  }

  lemma RequestsKeep(s: State, e: Event)
    requires Inv(s)
    ensures RequestsOk(Step(s, e))
  {}

  lemma BackoffKeeps(s: State, e: Event)
    requires Inv(s)
    ensures var n := Step(s, e); BackoffOk(n) && !(n.port.Some? && n.reconnect.Some?) && (n.stable ==> n.port.Some?)
  {}

  lemma StepKeeps(s: State, e: Event)
    requires Inv(s)
    ensures Inv(Step(s, e))
  {
    RequestsKeep(s, e);
    BackoffKeeps(s, e);
  }

  lemma {:induction false} RunKeeps(es: seq<Event>)
    ensures Inv(Steps(es))
  {
    if es != [] {
      RunKeeps(es[..|es| - 1]);
      StepKeeps(Steps(es[..|es| - 1]), es[|es| - 1]);
    }
  }

  // ----- the theorems -----

  /** A link has a port, or a reconnect on its way, or neither, never both; a stable timer runs only
      under a port; without a port nothing is pending. */
  lemma {:induction false} PortOrTimer(es: seq<Event>)
    ensures var s := Steps(es);
      !(s.port.Some? && s.reconnect.Some?) && (s.stable ==> s.port.Some?) && (s.port.None? ==> s.pending == {})
  {
    RunKeeps(es);
  }

  predicate Sent(es: seq<Event>, id: Id) {
    exists i :: 0 <= i < |es| && es[i].Send? && es[i].id == id
  }

  /** The promise of a `send` is pending with its timer live, or was settled once and its timer is
      gone; nothing else is ever settled or keeps a timer. */
  lemma {:induction false} SendsEndOnce(es: seq<Event>, id: Id)
    ensures var s := Steps(es);
      && (Sent(es, id) <==> id in s.pending || id in s.outcomes)
      && !(id in s.pending && id in s.outcomes) && !s.again
      && (id in s.timers <==> id in s.pending)
  {
    RunKeeps(es);
    if es != [] {
      var before, e := es[..|es| - 1], es[|es| - 1];
      SendsEndOnce(before, id);
      RunKeeps(before);
      StepKnows(Steps(before), e, id);
      assert es == before + [e];
      if Sent(before, id) {
        var i :| 0 <= i < |before| && before[i].Send? && before[i].id == id;
        assert es[i].Send?;
      }
      if e.Send? && e.id == id { assert es[|before|].Send?; }
    }
  }

  lemma StepKnows(s: State, e: Event, id: Id)
    requires Inv(s)
    ensures id in Step(s, e).pending || id in Step(s, e).outcomes
       <==> id in s.pending || id in s.outcomes || (e.Send? && e.id == id)
    ensures id in s.outcomes ==> id in Step(s, e).outcomes && Step(s, e).outcomes[id] == s.outcomes[id]
  {
    if id in s.outcomes { SettledStays(s, e, id); }
  }

  lemma SettledStays(s: State, e: Event, id: Id)
    requires Inv(s) && id in s.outcomes
    ensures id in Step(s, e).outcomes && Step(s, e).outcomes[id] == s.outcomes[id]
  {}

  lemma LastStep(es: seq<Event>, e: Event)
    ensures Steps(es + [e]) == Step(Steps(es), e)
  {
    assert (es + [e])[..|es|] == es;
  }

  /** How a `send` ended never changes. */
  lemma {:induction false} OutcomeIsFinal(es: seq<Event>, more: seq<Event>, id: Id)
    requires id in Steps(es).outcomes
    ensures id in Steps(es + more).outcomes && Steps(es + more).outcomes[id] == Steps(es).outcomes[id]
    decreases |more|
  {
    if more == [] {
      assert es + more == es;
    } else {
      var m, e := more[..|more| - 1], more[|more| - 1];
      OutcomeIsFinal(es, m, id);
      assert es + more == (es + m) + [e];
      RunKeeps(es + m);
      LastStep(es + m, e);
      SettledStays(Steps(es + m), e, id);
    }
  }

  /** What has to happen for a `send` to end in this way. */
  ghost predicate Earned(es: seq<Event>, id: Id, o: Outcome) {
    match o
    case Resolved => exists p :: Receive(p, Answer(id, true)) in es
    case Refused => exists p :: Receive(p, Answer(id, false)) in es
    case TimedOut => SendTimesOut(id) in es
    case NotConnected => exists posted :: Send(id, posted) in es
    case NotPosted => Send(id, false) in es
    case Disconnected => exists p :: Disconnect(p) in es
  }

  lemma EarnedNow(s: State, e: Event, id: Id)
    requires id !in s.outcomes && id in Step(s, e).outcomes
    ensures Earned([e], id, Step(s, e).outcomes[id])
  {
    match e
    case Receive(p, m) => assert m == Answer(id, m.success) && e == Receive(p, Answer(id, m.success));
    case Send(other, posted) => assert other == id;
    case Disconnect(p) => assert e == Disconnect(p);
    case _ =>
  }

  lemma EarnedStays(es: seq<Event>, e: Event, id: Id, o: Outcome)
    ensures Earned(es, id, o) || Earned([e], id, o) ==> Earned(es + [e], id, o)
  {
    assert forall x :: x in es || x in [e] ==> x in es + [e];
  }

  /** No promise ends for a reason that did not happen: resolved and refused by an answer to that
      very id, timed out by its own timer, disconnected by a disconnect. */
  lemma {:induction false} OutcomeIsEarned(es: seq<Event>, id: Id)
    requires id in Steps(es).outcomes
    ensures Earned(es, id, Steps(es).outcomes[id])
  {
    if es != [] {
      var before, e := es[..|es| - 1], es[|es| - 1];
      assert es == before + [e];
      var s := Steps(before);
      RunKeeps(before);
      StepKnows(s, e, id);
      if id in s.outcomes { OutcomeIsEarned(before, id); } else { EarnedNow(s, e, id); }
      EarnedStays(before, e, id, Steps(es).outcomes[id]);
    }
  }

  // ----- what each event makes of a send -----

  /** How a pending `send` ends by this event, if it does. */
  function EndsBy(s: State, e: Event, id: Id): Option<Outcome> {
    match e
    case Receive(_, m) =>
      if m.Answer? && m.id == id then Some(if m.success then Resolved else Refused) else None
    case SendTimesOut(i) => if i == id then Some(TimedOut) else None
    case Disconnect(p) => if s.port == Some(p) then Some(Disconnected) else None
    case _ => None
  }

  /** How a new `send` ends at once, if it does: there is no port, or the port throws. */
  function EndsAtOnce(s: State, e: Event): Option<Outcome>
    requires e.Send?
  {
    if s.port.None? then Some(NotConnected) else if !e.posted then Some(NotPosted) else None
  }

  /** An answer to a pending id settles it, resolved on success and refused otherwise, its timer and the loss
      of its port settle it too, and nothing else does; a new one is pending unless it cannot be sent. */
  lemma EventsSettle(s: State, e: Event, id: Id)
    requires Inv(s)
    ensures id in s.pending ==>
      var n := Step(s, e); var o := EndsBy(s, e, id);
      if o.Some? then id !in n.pending && id !in n.timers && id in n.outcomes && n.outcomes[id] == o.value
      else id in n.pending && id in n.timers && id !in n.outcomes
    ensures e.Send? && e.id == id && id !in s.pending && id !in s.outcomes ==>
      var n := Step(s, e); var o := EndsAtOnce(s, e);
      if o.Some? then id !in n.pending && id !in n.timers && id in n.outcomes && n.outcomes[id] == o.value
      else id in n.pending && id in n.timers && id !in n.outcomes
  {
    if id in s.pending { PendingSettles(s, e, id); }
  }

  lemma PendingSettles(s: State, e: Event, id: Id)
    requires Inv(s) && id in s.pending
    ensures var n := Step(s, e); var o := EndsBy(s, e, id);
      if o.Some? then id !in n.pending && id !in n.timers && id in n.outcomes && n.outcomes[id] == o.value
      else id in n.pending && id in n.timers && id !in n.outcomes
  {
    match e
    case Disconnect(p) => DisconnectSettles(s, p, id);
    case Receive(p, m) => ReceiveSettles(s, p, m, id);
    case _ =>
  }

  lemma DisconnectSettles(s: State, p: Port, id: Id)
    requires Inv(s) && id in s.pending
    ensures var n := DoDisconnect(s, p);
      if s.port == Some(p)
      then id !in n.pending && id !in n.timers && id in n.outcomes && n.outcomes[id] == Disconnected
      else n == s
  {
  }

  lemma ReceiveSettles(s: State, p: Port, m: Message, id: Id)
    requires Inv(s) && id in s.pending
    ensures var n := DoReceive(s, p, m);
      if m.Answer? && m.id == id
      then && id !in n.pending && id !in n.timers && id in n.outcomes
           && n.outcomes[id] == if m.success then Resolved else Refused
      else id in n.pending && id in n.timers && id !in n.outcomes
  {
  }

  /** How the run ends a `send`: by the first event that can, from its sending on. */
  function OutcomeOf(es: seq<Event>, id: Id): Option<Outcome> {
    if es == [] then None
    else
      var before, e := es[..|es| - 1], es[|es| - 1];
      var s := Steps(before);
      if OutcomeOf(before, id).Some? then OutcomeOf(before, id)
      else if Sent(before, id) then EndsBy(s, e, id)
      else if e.Send? && e.id == id then EndsAtOnce(s, e)
      else None
  }

  /** In every run a `send` ends in that way and no other, and is pending until then. */
  lemma {:induction false} FirstEventSettles(es: seq<Event>, id: Id)
    requires Sent(es, id)
    ensures var s := Steps(es); var o := OutcomeOf(es, id);
      if o.Some? then id in s.outcomes && s.outcomes[id] == o.value else id in s.pending
  {
    var before, e := es[..|es| - 1], es[|es| - 1];
    assert es == before + [e];
    RunKeeps(before);
    SendsEndOnce(before, id);
    if Sent(before, id) {
      FirstEventSettles(before, id);
      StepKnows(Steps(before), e, id);
    } else {
      UnsentHasNone(before, id);
      SentNow(before, e, id);
    }
    EventsSettle(Steps(before), e, id);
  }

  lemma SentNow(es: seq<Event>, e: Event, id: Id)
    requires Sent(es + [e], id) && !Sent(es, id)
    ensures e.Send? && e.id == id
  {
    var all := es + [e];
    assert forall j :: 0 <= j < |es| ==> all[j] == es[j];
    var i :| 0 <= i < |all| && all[i].Send? && all[i].id == id;
  }

  lemma {:induction false} UnsentHasNone(es: seq<Event>, id: Id)
    requires !Sent(es, id)
    ensures OutcomeOf(es, id).None?
  {
    if es != [] {
      var before := es[..|es| - 1];
      assert forall i :: 0 <= i < |before| ==> before[i] == es[i];
      UnsentHasNone(before, id);
    }
  }

  function Waiting(n: nat): real {
    if n == 0 then 0.0 else Waiting(n - 1) + Delay(n - 1)
  }

  lemma {:induction false} TotalIsWaiting(delays: seq<real>)
    requires forall i :: 0 <= i < |delays| ==> delays[i] == Delay(i)
    ensures Total(delays) == Waiting(|delays|)
  {
    if delays != [] { TotalIsWaiting(delays[..|delays| - 1]); }
  }

  lemma {:induction false} WaitingGrows(m: nat, n: nat)
    requires m <= n
    ensures Waiting(m) <= Waiting(n)
  {
    if m < n {
      PowerIsPositive(n - 1);
      WaitingGrows(m, n - 1);
    }
  }

  lemma {:induction false} PowerIsPositive(n: nat)
    ensures Power(n) >= 1.0
  {
    if n > 0 { PowerIsPositive(n - 1); }
  }

  lemma WaitingForTen()
    ensures Waiting(10) == 104886.71875
  {
    assert Power(1) == 1.5 && Power(2) == 2.25 && Power(3) == 3.375 && Power(4) == 5.0625;
    assert Power(5) == 7.59375 && Power(6) == 11.390625 && Power(7) == 17.0859375 && Power(8) == 25.62890625;
    assert Power(9) > 30.0;
    assert Waiting(3) == 4750.0 && Waiting(6) == 20781.25 && Waiting(9) == 74886.71875;
  }

  /** Between two resets of the counter at most ten reconnects are scheduled, and they wait less
      than 105 seconds in all. */
  lemma BackoffIsBounded(es: seq<Event>)
    ensures var delays := Steps(es).delays;
      && |delays| == Steps(es).attempt <= MAX_ATTEMPTS
      && Total(delays) <= 104886.71875 < 105000.0
  {
    RunKeeps(es);
    var delays := Steps(es).delays;
    TotalIsWaiting(delays);
    WaitingGrows(|delays|, 10);
    WaitingForTen();
  }

  /** `n` reconnects fire and fail. */
  function Fails(s: State, port: Port, n: nat): State {
    if n == 0 then s else Step(Fails(s, port, n - 1), ReconnectFires(port, false))
  }

  /** After a connection that was stable goes down, the link tries again after each delay in turn,
      and after the tenth failure it gives up: no timer is left and the next `connect` starts over. */
  lemma {:induction false} TriesTenTimes(s: State, port: Port, other: Port, n: nat)
    requires Inv(s) && s.port == Some(port) && s.attempt == 0 && n <= MAX_ATTEMPTS
    ensures var f := Fails(Step(s, Disconnect(port)), other, n);
      && f.port == None && f.pending == {}
      && (n < MAX_ATTEMPTS ==> f.attempt == n + 1 && f.reconnect == Some(Delay(n)))
      && (n == MAX_ATTEMPTS ==> f.attempt == 0 && f.reconnect == None)
  {
    if n > 0 { TriesTenTimes(s, port, other, n - 1); }
  }

  /** A new connection counts from where the last one stopped until it is stable: then, by its timer
      or by its first message, the counter starts over, and the timer is gone. */
  lemma StabilityResets(s: State, port: Port, m: Message)
    requires Inv(s) && s.port == None
    ensures var up := Step(s, Connect(port, true));
      && up.attempt == s.attempt && up.port == Some(port) && up.reconnect == None
      && Step(up, StableFires).attempt == 0 && !Step(up, StableFires).stable
      && Step(up, Receive(port, m)).attempt == 0 && !Step(up, Receive(port, m)).stable
      && (forall other :: other != port ==> Step(up, Receive(other, m)).attempt == s.attempt)
  {
    var up := Step(s, Connect(port, true));
    forall other | other != port ensures Step(up, Receive(other, m)).attempt == s.attempt {
      assert DoReceive(up, other, m).attempt == up.attempt;
    }
  }

  // ----- the code -----

  lemma RejectNone(s: State)
    ensures Reject(s, {}) == s
  {
    assert s.outcomes + All({}, Disconnected) == s.outcomes;
    assert s.timers - {} == s.timers;
  }

  lemma AllOneMore(outcomes: map<Id, Outcome>, done: set<Id>, id: Id, o: Outcome)
    ensures outcomes + All(done + {id}, o) == (outcomes + All(done, o))[id := o]
  {}

  lemma TimersOneFewer(timers: set<Id>, done: set<Id>, id: Id)
    ensures timers - (done + {id}) == timers - done - {id}
  {}

  lemma RejectOneMore(s: State, done: set<Id>, id: Id)
    requires id !in done
    ensures var (n, m) := (Reject(s, done), Reject(s, done + {id}));
      m == n.(timers := n.timers - {id}, outcomes := n.outcomes[id := Disconnected],
              again := n.again || id in n.outcomes)
  {
    AllOneMore(s.outcomes, done, id, Disconnected);
    TimersOneFewer(s.timers, done, id);
    if id in s.outcomes { assert id in done + {id}; }
    if i :| i in done && i in s.outcomes { assert i in done + {id}; }
  }

  class NativeLink {
    var port: Option<Port>
    var attempt: nat
    var reconnect: Option<real>
    var stable: bool
    var pending: set<Id>
    var timers: set<Id>
    var outcomes: map<Id, Outcome>
    var again: bool
    var delays: seq<real>

    constructor ()
      ensures View() == START && Inv(View())
    {
      port, attempt, reconnect, stable := None, 0, None, false;
      pending, timers, outcomes, again, delays := {}, {}, map[], false, [];
    }

    function View(): State
      reads this
    {
      State(port, attempt, reconnect, stable, pending, timers, outcomes, again, delays)
    }

    method SettleOne(id: Id, o: Outcome)
      modifies `outcomes, `again
      ensures View() == Settle(old(View()), {id}, o)
    {
      again := again || id in outcomes;
      outcomes := outcomes[id := o];
    }

    method ScheduleReconnect()
      modifies `attempt, `reconnect, `delays
      ensures View() == Schedule(old(View()))
    {
      if port.Some? || reconnect.Some? { return; }
      if attempt >= MAX_ATTEMPTS {
        attempt, delays := 0, [];
        return;
      }
      var delay := Delay(attempt);
      attempt := attempt + 1;
      reconnect, delays := Some(delay), delays + [delay];
    }

    method OnConnect(p: Port, ok: bool)
      requires Inv(View())
      modifies `port, `attempt, `reconnect, `stable, `delays
      ensures View() == Step(old(View()), Connect(p, ok)) && Inv(View())
    {
      StepKeeps(View(), Connect(p, ok));
      if port.Some? { return; }
      if ok {
        port, reconnect, stable := Some(p), None, true;
      } else {
        ScheduleReconnect();
      }
    }

    method OnReconnect(p: Port, ok: bool)
      requires Inv(View()) && reconnect.Some?
      modifies `port, `attempt, `reconnect, `stable, `delays
      ensures View() == Step(old(View()), ReconnectFires(p, ok)) && Inv(View())
    {
      StepKeeps(View(), ReconnectFires(p, ok));
      reconnect := None;
      OnConnect(p, ok);
    }

    method OnSend(id: Id, posted: bool)
      requires Inv(View()) && id !in pending && id !in outcomes
      modifies `pending, `timers, `outcomes, `again
      ensures View() == Step(old(View()), Send(id, posted)) && Inv(View())
    {
      StepKeeps(View(), Send(id, posted));
      if port.None? {
        SettleOne(id, NotConnected);
        return;
      }
      pending, timers := pending + {id}, timers + {id};
      if !posted {
        pending, timers := pending - {id}, timers - {id};
        SettleOne(id, NotPosted);
      }
    }

    method OnStable()
      requires Inv(View())
      modifies `stable, `attempt, `delays
      ensures View() == Step(old(View()), StableFires) && Inv(View())
    {
      StepKeeps(View(), StableFires);
      if stable { stable, attempt, delays := false, 0, []; }
    }

    method OnReceive(p: Port, m: Message)
      requires Inv(View())
      modifies `stable, `attempt, `delays, `pending, `timers, `outcomes, `again
      ensures View() == Step(old(View()), Receive(p, m)) && Inv(View())
    {
      StepKeeps(View(), Receive(p, m));
      if port == Some(p) { OnStable(); }
      if m.Answer? && m.id in pending {
        pending, timers := pending - {m.id}, timers - {m.id};
        SettleOne(m.id, if m.success then Resolved else Refused);
      }
    }

    method OnTimeout(id: Id)
      requires Inv(View()) && id in timers
      modifies `pending, `timers, `outcomes, `again
      ensures View() == Step(old(View()), SendTimesOut(id)) && Inv(View())
    {
      StepKeeps(View(), SendTimesOut(id));
      timers := timers - {id};
      if id in pending {
        pending := pending - {id};
        SettleOne(id, TimedOut);
      }
    }

    method RejectOne(ghost was: State, ghost done: set<Id>, id: Id)
      requires View() == Reject(was, done) && id !in done
      modifies `timers, `outcomes, `again
      ensures View() == Reject(was, done + {id})
    {
      RejectOneMore(was, done, id);
      timers := timers - {id};
      again := again || id in outcomes;
      outcomes := outcomes[id := Disconnected];
    }

    method RejectAll()
      modifies `pending, `timers, `outcomes, `again
      ensures View() == RejectPending(old(View()))
    {
      ghost var was, done: set<Id> := View(), {};
      var left := pending;
      RejectNone(was);
      while left != {}
        invariant left <= pending == was.pending && done == was.pending - left
        invariant View() == Reject(was, done)
        decreases |left|
      {
        var id :| id in left;
        RejectOne(was, done, id);
        left, done := left - {id}, done + {id};
      }
      pending := {};
      assert done == was.pending;
    }

    method OnDisconnect(p: Port)
      requires Inv(View())
      modifies this
      ensures View() == Step(old(View()), Disconnect(p)) && Inv(View())
    {
      StepKeeps(View(), Disconnect(p));
      if port != Some(p) { return; }
      port, stable := None, false;
      RejectAll();
      ScheduleReconnect();
    }
  }
}

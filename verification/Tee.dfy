/**
 Body capture of the HAR recorder (extension/src/har-recorder.ts): stream filters that write
 every chunk through to the page and keep a prefix of it, all of them and the request bodies
 drawing on one byte budget.

 `StreamFilter` is Firefox's: a call in a state where Firefox throws sets `faulty`. Data of a
 filter that has disconnected or failed reaches the page straight from the channel.
 */
module Tee {
  import opened Base

  datatype FilterStatus =
    | Uninitialized | Transferring | Suspended | FinishedTransferring
    | Closed | Disconnected | Failed

  /** `sent` and `ended` are the channel's side, `page` and `pageEnded` what the page got.
      `released` stands for the handlers `releaseFilters` leaves on a filter that has not started. */
  datatype StreamFilter = StreamFilter(
    status: FilterStatus, released: bool, faulty: bool,
    sent: seq<Byte>, ended: bool, page: seq<Byte>, pageEnded: bool)
  {
    predicate Started() {
      status.Transferring? || status.Suspended? || status.FinishedTransferring?
    }

    function Write(data: seq<Byte>): StreamFilter {
      if Started() then this.(page := page + data) else this.(faulty := true)
    }

    function Disconnect(): StreamFilter {
      if Started() then this.(status := Disconnected, pageEnded := ended) else this.(faulty := true)
    }

    function Close(): StreamFilter {
      if Started() then this.(status := Closed, pageEnded := true) else this.(faulty := true)
    }
  }

  const OPENED := StreamFilter(Uninitialized, false, false, [], false, [], false)

  /** `ResponseBodyRecord`, with `error` as a mark. */
  datatype Body = Body(chunks: seq<seq<Byte>>, complete: bool, truncated: bool, size: nat, error: bool)

  /** One hop's bodies: what the request stored, and the response with its filter and the
      counters its callbacks close over. */
  datatype Hop = Hop(
    requestStored: nat, requestDropped: bool,
    filter: Option<StreamFilter>, stored: nat, seen: nat,
    body: Option<Body>, bodyDropped: bool)

  datatype Recording = Recording(maxBodySize: nat, budget: int, stopped: bool, hops: seq<Hop>)

  // ----- response bodies -----

  function Kept(maxBodySize: nat, budget: int, stored: nat, data: seq<Byte>): int {
    Min(Min(maxBodySize - stored, budget), |data|)
  }

  /** The `ondata` callback: the hop afterwards and the budget it leaves. */
  function OnData(maxBodySize: nat, budget: int, stopped: bool, h: Hop, data: seq<Byte>): (Hop, int)
    requires h.filter.Some? && h.body.Some?
  {
    var written := h.(filter := Some(h.filter.value.Write(data)));
    if stopped then (written, budget)
    else
      var n := Kept(maxBodySize, budget, h.stored, data);
      var seen := h.seen + |data|;
      var kept := if n <= 0 then written
                  else written.(stored := h.stored + n,
                    body := Some(h.body.value.(chunks := h.body.value.chunks + [data[..n]])));
      var left := if n <= 0 then budget else budget - n;
      if n >= |data| then (kept.(seen := seen), left)
      else
        var cut := kept.(seen := seen, filter := Some(kept.filter.value.Disconnect()));
        if kept.stored == 0 then (cut.(body := None, bodyDropped := true), left)
        else (cut.(body := Some(cut.body.value.(truncated := true, size := seen))), left)
  }

  /** The `onstop` callback. */
  function OnStop(stopped: bool, h: Hop): Hop
    requires h.filter.Some? && h.body.Some?
  {
    h.(filter := Some(h.filter.value.Close()),
       body := Some(if stopped then h.body.value else h.body.value.(complete := true)))
  }

  /** `captureResponse`; `opens` is false when filterResponseData throws. */
  function Capture(r: Recording, h: Hop, opens: bool): Hop {
    if r.budget <= 0 then h.(bodyDropped := true)
    else if opens then h.(filter := Some(OPENED), body := Some(Body([], false, false, 0, false)))
    else h.(body := Some(Body([], false, false, 0, true)))
  }

  /** One round of `releaseFilters`. */
  function ReleaseFilter(f: StreamFilter): StreamFilter {
    if f.Started() then f.Disconnect()
    else if f.status.Uninitialized? then f.(released := true)
    else f
  }

  function ReleaseHop(h: Hop): Hop {
    if h.filter.Some? then h.(filter := Some(ReleaseFilter(h.filter.value))) else h
  }

  // ----- the channel's side -----

  function ChannelStart(f: StreamFilter): StreamFilter {
    var started := f.(status := Transferring);
    if f.released then started.Disconnect() else started
  }

  /** Past the filter, the channel feeds the page itself. */
  predicate PassesBy(f: StreamFilter) {
    f.status.Disconnected? || f.status.Failed?
  }

  datatype Event =
    | Request(payload: bool, limitUsed: nat, opens: bool)   // onBeforeRequest; what storeBody kept of a body
    | Start(i: nat)
    | Data(i: nat, data: seq<Byte>)
    | End(i: nat)
    | Error(i: nat)
    | Stop

  /** What cutting the request body keeps of it: `used`, held to the cap and the budget. */
  function RequestBytes(r: Recording, payload: bool, used: nat): nat {
    if payload && r.budget > 0 then Min(used, Min(r.maxBodySize, r.budget)) else 0
  }

  /** `beforeRequest` with bodies captured. */
  function BeforeRequest(r: Recording, payload: bool, used: nat, opens: bool): Recording {
    var n := RequestBytes(r, payload, used);
    var left := r.(budget := r.budget - n);
    left.(hops := r.hops + [Capture(left, Hop(n, payload && r.budget <= 0, None, 0, 0, None, false), opens)])
  }

  function Put(r: Recording, i: nat, h: Hop): Recording
    requires i < |r.hops|
  {
    r.(hops := r.hops[i := h])
  }

  predicate Feeding(r: Recording, i: nat) {
    i < |r.hops| && r.hops[i].filter.Some? && !r.hops[i].filter.value.ended
  }

  function Step(r: Recording, e: Event): Recording {
    match e
    case Request(payload, used, opens) =>
      if r.stopped || r.maxBodySize == 0 then r else BeforeRequest(r, payload, used, opens)
    case Start(i) =>
      if Feeding(r, i) && r.hops[i].filter.value.status.Uninitialized?
      then Put(r, i, r.hops[i].(filter := Some(ChannelStart(r.hops[i].filter.value)))) else r
    case Data(i, data) =>
      if !Feeding(r, i) then r
      else
        var h := r.hops[i];
        var f := h.filter.value.(sent := h.filter.value.sent + data);
        if PassesBy(f) then Put(r, i, h.(filter := Some(f.(page := f.page + data))))
        else if f.status.Transferring? && h.body.Some? then
          var (h', left) := OnData(r.maxBodySize, r.budget, r.stopped, h.(filter := Some(f)), data);
          Put(r, i, h').(budget := left)
        else r
    case End(i) =>
      if !Feeding(r, i) then r
      else
        var h := r.hops[i];
        var f := h.filter.value.(ended := true);
        if PassesBy(f) then Put(r, i, h.(filter := Some(f.(pageEnded := true))))
        else if f.status.Transferring? && h.body.Some? then
          Put(r, i, OnStop(r.stopped, h.(filter := Some(f.(status := FinishedTransferring)))))
        else r
    case Error(i) =>
      if Feeding(r, i)
        && (r.hops[i].filter.value.status.Uninitialized? || r.hops[i].filter.value.status.Transferring?) then
        var h := r.hops[i].(filter := Some(r.hops[i].filter.value.(status := Failed)));
        Put(r, i, if r.stopped || h.body.None? then h else h.(body := Some(h.body.value.(error := true))))
      else r
    case Stop => r.(stopped := true, hops := seq(|r.hops|, k requires 0 <= k < |r.hops| => ReleaseHop(r.hops[k])))
  }

  function Steps(r: Recording, es: seq<Event>): Recording
    decreases |es|
  {
    if es == [] then r else Step(Steps(r, es[..|es| - 1]), es[|es| - 1])
  }

  // ----- the invariant -----

  /** The page has exactly what the channel sent, and no call ever threw. */
  predicate Transparent(f: StreamFilter) {
    && f.page == f.sent && !f.faulty
    && (f.ended <==> f.pageEnded)
    && (f.status.Uninitialized? ==> f.sent == [])
    && (f.ended ==> f.status.Closed? || PassesBy(f))
    && !f.status.Suspended? && !f.status.FinishedTransferring?
    && (f.status.Closed? ==> f.ended)
  }

  /** The body of a hop against the bytes its channel sent. */
  predicate BodyOk(stopped: bool, b: Body, f: StreamFilter, stored: nat, seen: nat) {
    var bytes := Concat(b.chunks);
    && |bytes| == stored && bytes <= f.sent
    && (b.truncated ==> !b.complete && PassesBy(f) && stored < b.size <= |f.sent| && b.size == seen)
    && (b.complete <==> f.status.Closed?)
    && (b.complete ==> bytes == f.sent)
    && (!stopped && f.status.Disconnected? ==> b.truncated)
    && (!stopped && !b.truncated && !f.status.Failed? ==> bytes == f.sent && seen == |f.sent|)
  }

  predicate FilterOk(stopped: bool, f: StreamFilter) {
    && Transparent(f)
    && (f.released ==> stopped)
    && (stopped ==> !f.Started() && (f.status.Uninitialized? ==> f.released))
  }

  predicate HopOk(maxBodySize: nat, stopped: bool, h: Hop) {
    && h.stored <= maxBodySize && h.requestStored <= maxBodySize
    && (h.bodyDropped ==> h.body.None?)
    && (h.body.None? ==> h.stored == 0)
    && (h.filter.None? ==> h.stored == 0 && (h.body.Some? ==> h.body.value == Body([], false, false, 0, true)))
    && (h.filter.Some? ==>
          && FilterOk(stopped, h.filter.value)
          && (h.body.None? ==> h.bodyDropped && !h.filter.value.Started() && !h.filter.value.status.Uninitialized?)
          && (h.body.Some? ==> BodyOk(stopped, h.body.value, h.filter.value, h.stored, h.seen)))
  }

  function Held(h: Hop): nat {
    h.stored + h.requestStored
  }

  function Holdings(hops: seq<Hop>): seq<nat> {
    seq(|hops|, k requires 0 <= k < |hops| => Held(hops[k]))
  }

  ghost predicate Inv(r: Recording, initial: nat) {
    && r.budget >= 0
    && (r.maxBodySize == 0 ==> r.hops == [])
    && r.budget + Sum(Holdings(r.hops)) == initial
    && forall i :: 0 <= i < |r.hops| ==> HopOk(r.maxBodySize, r.stopped, r.hops[i])
  }

  // ----- every step keeps it -----

  lemma PutKeeps(r: Recording, initial: nat, i: nat, h: Hop, budget: int)
    requires Inv(r, initial) && i < |r.hops| && HopOk(r.maxBodySize, r.stopped, h)
    requires budget >= 0 && budget + Held(h) == r.budget + Held(r.hops[i])
    ensures Inv(Put(r, i, h).(budget := budget), initial)
  {
    SumUpdate(Holdings(r.hops), i, Held(h));
    assert Holdings(r.hops[i := h]) == Holdings(r.hops)[i := Held(h)];
  }

  /** One more chunk seen, of which a prefix of `n` bytes is stored. */
  lemma ChunkStored(b: Body, f: StreamFilter, stored: nat, seen: nat, data: seq<Byte>, n: nat)
    requires BodyOk(false, b, f, stored, seen) && f.status.Transferring? && n <= |data|
    ensures var b' := b.(chunks := b.chunks + [data[..n]]);
      Concat(b'.chunks) == f.sent + data[..n] && f.sent + data[..n] <= f.sent + data
    ensures !b.truncated && !b.complete && Concat(b.chunks) == f.sent && stored == |f.sent|
  {
    ConcatAdd(b.chunks, data[..n]);
  }

  /** The hop is fed `data` while its filter transfers and nothing stopped it. */
  predicate Fed(maxBodySize: nat, budget: int, h: Hop) {
    && HopOk(maxBodySize, false, h) && budget >= 0 && maxBodySize > 0
    && h.filter.Some? && h.filter.value.status.Transferring? && h.body.Some?
  }

  function Sent(h: Hop, data: seq<Byte>): Hop
    requires h.filter.Some?
  {
    h.(filter := Some(h.filter.value.(sent := h.filter.value.sent + data)))
  }

  lemma AllKept(maxBodySize: nat, budget: int, h: Hop, data: seq<Byte>)
    requires Fed(maxBodySize, budget, h) && Kept(maxBodySize, budget, h.stored, data) == |data|
    ensures var (h', left) := OnData(maxBodySize, budget, false, Sent(h, data), data);
      HopOk(maxBodySize, false, h') && left >= 0 && left + Held(h') == budget + Held(h) && !h'.bodyDropped
  {
    ChunkStored(h.body.value, h.filter.value, h.stored, h.seen, data, |data|);
    assert data[..|data|] == data;
    if data == [] {
      assert h.filter.value.sent + data == h.filter.value.sent;
    }
  }

  lemma SomeKept(maxBodySize: nat, budget: int, h: Hop, data: seq<Byte>)
    requires Fed(maxBodySize, budget, h) && 0 < Kept(maxBodySize, budget, h.stored, data) < |data|
    ensures var (h', left) := OnData(maxBodySize, budget, false, Sent(h, data), data);
      HopOk(maxBodySize, false, h') && left >= 0 && left + Held(h') == budget + Held(h) && !h'.bodyDropped
  {
    ChunkStored(h.body.value, h.filter.value, h.stored, h.seen, data, Kept(maxBodySize, budget, h.stored, data));
  }

  lemma NoneKept(maxBodySize: nat, budget: int, h: Hop, data: seq<Byte>)
    requires Fed(maxBodySize, budget, h) && Kept(maxBodySize, budget, h.stored, data) <= 0 < |data|
    ensures var (h', left) := OnData(maxBodySize, budget, false, Sent(h, data), data);
      HopOk(maxBodySize, false, h') && left == budget && Held(h') == Held(h) && (h'.bodyDropped ==> budget == 0)
  {
    assert h.filter.value.sent <= h.filter.value.sent + data;
  }

  /** What `ondata` does to its hop, whatever the chunk, the budget and the cap: the hop stays
      sound, the budget pays for what was stored, and only an empty budget drops the body. */
  lemma OnDataOk(maxBodySize: nat, budget: int, h: Hop, data: seq<Byte>)
    requires Fed(maxBodySize, budget, h)
    ensures var (h', left) := OnData(maxBodySize, budget, false, Sent(h, data), data);
      HopOk(maxBodySize, false, h') && left >= 0 && left + Held(h') == budget + Held(h)
        && (h'.bodyDropped ==> budget == 0)
  {
    var n := Kept(maxBodySize, budget, h.stored, data);
    if n == |data| {
      AllKept(maxBodySize, budget, h, data);
    } else if n > 0 {
      SomeKept(maxBodySize, budget, h, data);
    } else {
      NoneKept(maxBodySize, budget, h, data);
    }
  }

  lemma PassedByOk(maxBodySize: nat, stopped: bool, h: Hop, data: seq<Byte>)
    requires HopOk(maxBodySize, stopped, h) && h.filter.Some? && PassesBy(h.filter.value) && !h.filter.value.ended
    ensures HopOk(maxBodySize, stopped,
      h.(filter := Some(h.filter.value.(sent := h.filter.value.sent + data, page := h.filter.value.page + data))))
  {
    assert h.filter.value.sent <= h.filter.value.sent + data;
  }

  lemma DataKeeps(r: Recording, initial: nat, i: nat, data: seq<Byte>)
    requires Inv(r, initial)
    ensures Inv(Step(r, Data(i, data)), initial)
  {
    if Feeding(r, i) {
      var h := r.hops[i];
      var f := h.filter.value;
      if PassesBy(f) {
        PassedByOk(r.maxBodySize, r.stopped, h, data);
        PutKeeps(r, initial, i, h.(filter := Some(f.(sent := f.sent + data, page := f.page + data))), r.budget);
      } else if f.status.Transferring? && h.body.Some? {
        OnDataOk(r.maxBodySize, r.budget, h, data);
        var (h', left) := OnData(r.maxBodySize, r.budget, false, Sent(h, data), data);
        PutKeeps(r, initial, i, h', left);
      }
    }
  }

  /** The other events of one hop's channel: they cost nothing and keep the hop sound. */
  lemma ChannelKeeps(r: Recording, initial: nat, e: Event)
    requires Inv(r, initial) && (e.Start? || e.End? || e.Error?)
    ensures Inv(Step(r, e), initial)
  {
    if Feeding(r, e.i) && Step(r, e) != r {
      var r' := Step(r, e);
      PutKeeps(r, initial, e.i, r'.hops[e.i], r.budget);
    }
  }

  lemma CaptureOk(r: Recording, h: Hop, opens: bool)
    requires HopOk(r.maxBodySize, false, h) && h.filter.None? && h.body.None? && h.stored == 0 && h.seen == 0
      && !h.bodyDropped
    ensures HopOk(r.maxBodySize, false, Capture(r, h, opens)) && Held(Capture(r, h, opens)) == Held(h)
  {
  }

  lemma AppendKeeps(r: Recording, initial: nat, h: Hop, n: nat)
    requires Inv(r, initial) && r.maxBodySize > 0 && HopOk(r.maxBodySize, r.stopped, h) && Held(h) == n <= r.budget
    ensures Inv(r.(budget := r.budget - n, hops := r.hops + [h]), initial)
  {
    assert Holdings(r.hops + [h]) == Holdings(r.hops) + [Held(h)];
    SumAdd(Holdings(r.hops), Held(h));
  }

  lemma HopOpened(r: Recording, initial: nat, n: nat, dropped: bool, opens: bool)
    requires Inv(r, initial) && r.maxBodySize > 0 && !r.stopped && n <= r.budget && n <= r.maxBodySize
    ensures var left := r.(budget := r.budget - n);
      Inv(left.(hops := r.hops + [Capture(left, Hop(n, dropped, None, 0, 0, None, false), opens)]), initial)
  {
    var left := r.(budget := r.budget - n);
    var hop := Hop(n, dropped, None, 0, 0, None, false);
    CaptureOk(left, hop, opens);
    AppendKeeps(r, initial, Capture(left, hop, opens), n);
  }

  lemma RequestKeeps(r: Recording, initial: nat, payload: bool, used: nat, opens: bool)
    requires Inv(r, initial) && !r.stopped && r.maxBodySize > 0
    ensures Inv(BeforeRequest(r, payload, used, opens), initial)
  {
    var n := RequestBytes(r, payload, used);
    var dropped := payload && r.budget <= 0;
    var left := r.(budget := r.budget - n);
    assert n <= r.budget && n <= r.maxBodySize;
    HopOpened(r, initial, n, dropped, opens);
    assert BeforeRequest(r, payload, used, opens)
        == left.(hops := r.hops + [Capture(left, Hop(n, dropped, None, 0, 0, None, false), opens)]);
  }

  lemma StopKeeps(r: Recording, initial: nat)
    requires Inv(r, initial)
    ensures Inv(Step(r, Stop), initial)
  {
    var r' := Step(r, Stop);
    assert Holdings(r'.hops) == Holdings(r.hops);
    forall i | 0 <= i < |r.hops| ensures HopOk(r.maxBodySize, true, r'.hops[i]) {
      assert HopOk(r.maxBodySize, r.stopped, r.hops[i]);
    }
  }

  lemma StepKeeps(r: Recording, initial: nat, e: Event)
    requires Inv(r, initial)
    ensures Inv(Step(r, e), initial) && Step(r, e).maxBodySize == r.maxBodySize
  {
    match e
    case Request(payload, used, opens) =>
      if !r.stopped && r.maxBodySize > 0 { RequestKeeps(r, initial, payload, used, opens); }
    case Data(i, data) => DataKeeps(r, initial, i, data);
    case Stop => StopKeeps(r, initial);
    case _ => ChannelKeeps(r, initial, e);
  }

  lemma {:induction false} RunKeeps(r: Recording, initial: nat, es: seq<Event>)
    requires Inv(r, initial)
    ensures Inv(Steps(r, es), initial) && Steps(r, es).maxBodySize == r.maxBodySize
    decreases |es|
  {
    if es != [] {
      RunKeeps(r, initial, es[..|es| - 1]);
      StepKeeps(Steps(r, es[..|es| - 1]), initial, es[|es| - 1]);
    }
  }

  // ----- what it promises -----

  function Fresh(maxBodySize: nat, budget: nat): Recording {
    Recording(maxBodySize, budget, false, [])
  }

  /** The recorder is a transparent tee: at every point of every run, the page has exactly the bytes
      the channel sent so far and has ended exactly when it did, and no filter call ever threw. */
  lemma {:induction false} PageSeesTheChannel(maxBodySize: nat, budget: nat, es: seq<Event>, i: nat)
    requires var r := Steps(Fresh(maxBodySize, budget), es); i < |r.hops| && r.hops[i].filter.Some?
    ensures var f := Steps(Fresh(maxBodySize, budget), es).hops[i].filter.value;
      f.page == f.sent && (f.pageEnded <==> f.ended) && !f.faulty
  {
    RunKeeps(Fresh(maxBodySize, budget), budget, es);
    var r := Steps(Fresh(maxBodySize, budget), es);
    assert HopOk(r.maxBodySize, r.stopped, r.hops[i]);
  }

  /** What is stored of a body is a prefix of it within the cap; `complete` means all of it, and
      `truncated` a strict prefix whose `size` is the number of bytes seen. */
  lemma {:induction false} StoredIsPrefix(maxBodySize: nat, budget: nat, es: seq<Event>, i: nat)
    requires var r := Steps(Fresh(maxBodySize, budget), es);
      i < |r.hops| && r.hops[i].filter.Some? && r.hops[i].body.Some?
    ensures var h := Steps(Fresh(maxBodySize, budget), es).hops[i];
      var f := h.filter.value; var b := h.body.value; var bytes := Concat(b.chunks);
      && bytes <= f.sent && |bytes| <= maxBodySize
      && (b.complete ==> f.ended && bytes == f.sent)
      && (b.truncated ==> |bytes| < b.size == h.seen <= |f.sent|)
  {
    RunKeeps(Fresh(maxBodySize, budget), budget, es);
    var r := Steps(Fresh(maxBodySize, budget), es);
    assert HopOk(r.maxBodySize, r.stopped, r.hops[i]);
  }

  /** The budget and everything stored always add up to the budget the recording started with. */
  lemma {:induction false} BudgetIsConserved(maxBodySize: nat, budget: nat, es: seq<Event>)
    ensures var r := Steps(Fresh(maxBodySize, budget), es);
      && r.budget >= 0
      && r.budget + Sum(Holdings(r.hops)) == budget
      && forall i :: 0 <= i < |r.hops| ==> r.hops[i].stored <= maxBodySize && r.hops[i].requestStored <= maxBodySize
  {
    RunKeeps(Fresh(maxBodySize, budget), budget, es);
    var r := Steps(Fresh(maxBodySize, budget), es);
    forall i | 0 <= i < |r.hops| ensures r.hops[i].stored <= maxBodySize && r.hops[i].requestStored <= maxBodySize {
      assert HopOk(r.maxBodySize, r.stopped, r.hops[i]);
    }
  }

  predicate Dropped(r: Recording, i: nat) {
    i < |r.hops| && r.hops[i].bodyDropped
  }

  /** A response body is dropped only by a step that finds the budget spent. */
  lemma DroppedOnlyWhenSpent(r: Recording, initial: nat, e: Event, i: nat)
    requires Inv(r, initial) && !Dropped(r, i) && Dropped(Step(r, e), i)
    ensures Step(r, e).budget == 0
  {
    match e
    case Data(j, data) =>
      var h := r.hops[j];
      if j == i && h.filter.value.status.Transferring? && h.body.Some? {
        OnDataOk(r.maxBodySize, r.budget, h, data);
      }
    case Request(payload, used, opens) =>
    case _ =>
  }

  /** No body carries both the dropped flag and a payload. */
  lemma {:induction false} FlagExcludesPayload(maxBodySize: nat, budget: nat, es: seq<Event>, i: nat)
    requires i < |Steps(Fresh(maxBodySize, budget), es).hops|
    ensures var h := Steps(Fresh(maxBodySize, budget), es).hops[i];
      (h.bodyDropped ==> h.body.None? && h.stored == 0)
  {
    RunKeeps(Fresh(maxBodySize, budget), budget, es);
    var r := Steps(Fresh(maxBodySize, budget), es);
    assert HopOk(r.maxBodySize, r.stopped, r.hops[i]);
  }

  // ----- what is kept -----

  /** A hop opened while there is budget left has its response captured: through a filter, or with an error
      if Firefox opens none. Without budget its body counts as dropped. */
  lemma HopsAreCaptured(r: Recording, payload: bool, used: nat, opens: bool)
    requires !r.stopped && r.maxBodySize > 0 && r.budget >= 0
    ensures var n := Step(r, Request(payload, used, opens)); var i := |r.hops|;
      && |n.hops| == i + 1 && n.hops[..i] == r.hops
      && n.hops[i].requestDropped == (payload && r.budget == 0)
      && (n.budget == 0 ==> n.hops[i].bodyDropped && n.hops[i].body == None && n.hops[i].filter == None)
      && (n.budget > 0 ==>
            && !n.hops[i].bodyDropped && n.hops[i].body == Some(Body([], false, false, 0, !opens))
            && n.hops[i].filter == if opens then Some(OPENED) else None)
  {
  }

  /** A filter transfers from its start on, unless the recording stopped before: then it lets go at once. */
  lemma StartedFiltersTransfer(r: Recording, initial: nat, i: nat)
    requires Inv(r, initial) && Feeding(r, i) && r.hops[i].filter.value.status.Uninitialized?
    ensures var n := Step(r, Start(i));
      && i < |n.hops| && n.hops[i].filter.Some?
      && n.hops[i].filter.value.status == if r.stopped then Disconnected else Transferring
  {
    assert HopOk(r.maxBodySize, r.stopped, r.hops[i]);
  }

  /** A filter that fails marks what it has of the body, and lets the page have the rest from the channel. */
  lemma FailedFiltersTell(r: Recording, initial: nat, i: nat)
    requires Inv(r, initial) && Feeding(r, i) && !PassesBy(r.hops[i].filter.value)
    ensures var (h, n) := (r.hops[i], Step(r, Error(i)));
      && i < |n.hops| && n.hops[i].filter.Some? && PassesBy(n.hops[i].filter.value)
      && n.hops[i].filter.value.page == h.filter.value.page
      && h.body.Some? && n.hops[i].body == Some(if r.stopped then h.body.value else h.body.value.(error := true))
  {
    assert HopOk(r.maxBodySize, r.stopped, r.hops[i]);
  }

  /** Of a chunk everything is kept that cap and budget have room for, and the filter lets go of the rest of
      the body exactly when that is less than all of it. */
  lemma ChunksAreKept(maxBodySize: nat, budget: int, h: Hop, data: seq<Byte>)
    requires Fed(maxBodySize, budget, h)
    ensures var (h', left) := OnData(maxBodySize, budget, false, Sent(h, data), data);
      && h'.stored == Min(h.stored + |data|, Min(maxBodySize, h.stored + budget))
      && left == budget - (h'.stored - h.stored)
      && h'.filter.Some? && (h'.filter.value.status.Disconnected? <==> h'.stored < h.stored + |data|)
      && (h'.filter.value.status.Transferring? <==> h'.stored == h.stored + |data|)
      && (h'.body.Some? <==> h'.stored > 0 || h'.stored == h.stored + |data|)
      && (h'.body.Some? ==> (h'.body.value.truncated <==> h'.stored < h.stored + |data|))
  {
  }

  /** A channel that stops while its filter transfers, with nothing cut, has its body complete. */
  lemma StopCompletes(r: Recording, initial: nat, i: nat)
    requires Inv(r, initial) && Feeding(r, i) && r.hops[i].filter.value.status.Transferring?
    ensures var h := Step(r, End(i)).hops[i];
      && h.body.Some? && h.body.value.complete && !h.body.value.truncated
      && h.filter.Some? && h.filter.value.ended && h.filter.value.sent == r.hops[i].filter.value.sent
      && Concat(h.body.value.chunks) == h.filter.value.sent
  {
    assert HopOk(r.maxBodySize, r.stopped, r.hops[i]);
  }

  predicate CompleteAt(r: Recording, i: nat, bytes: seq<Byte>) {
    && i < |r.hops| && r.hops[i].body.Some? && r.hops[i].body.value.complete
    && Concat(r.hops[i].body.value.chunks) == bytes
    && r.hops[i].filter.Some? && r.hops[i].filter.value.ended && r.hops[i].filter.value.status.Closed?
  }

  lemma CompleteStays(r: Recording, e: Event, i: nat, bytes: seq<Byte>)
    requires CompleteAt(r, i, bytes)
    ensures CompleteAt(Step(r, e), i, bytes)
  {
  }

  lemma {:induction false} CompleteLasts(r: Recording, es: seq<Event>, i: nat, bytes: seq<Byte>)
    requires CompleteAt(r, i, bytes)
    ensures CompleteAt(Steps(r, es), i, bytes)
    decreases |es|
  {
    if es != [] {
      CompleteLasts(r, es[..|es| - 1], i, bytes);
      CompleteStays(Steps(r, es[..|es| - 1]), es[|es| - 1], i, bytes);
    }
  }

  lemma {:induction false} StepsAdd(r: Recording, es: seq<Event>, more: seq<Event>)
    ensures Steps(r, es + more) == Steps(Steps(r, es), more)
    decreases |more|
  {
    if more == [] {
      assert es + more == es;
    } else {
      assert (es + more)[..|es + more| - 1] == es + more[..|more| - 1];
      StepsAdd(r, es, more[..|more| - 1]);
    }
  }

  /** In every run a channel that stops while its filter transfers, which is before the recording stopped,
      has its body complete: it is all the channel sent, and stays that. */
  lemma {:induction false} StoppedBodiesAreComplete(maxBodySize: nat, budget: nat, es: seq<Event>, more: seq<Event>,
      i: nat)
    requires var r := Steps(Fresh(maxBodySize, budget), es);
      Feeding(r, i) && r.hops[i].filter.value.status.Transferring?
    ensures var sent := Steps(Fresh(maxBodySize, budget), es).hops[i].filter.value.sent;
      CompleteAt(Steps(Fresh(maxBodySize, budget), es + ([End(i)] + more)), i, sent)
  {
    var start := Fresh(maxBodySize, budget);
    RunKeeps(start, budget, es);
    StepsAdd(start, es, [End(i)] + more);
    StopLasts(Steps(start, es), budget, i, more);
  }

  lemma StepsFrom(r: Recording, e: Event, more: seq<Event>)
    ensures Steps(r, [e] + more) == Steps(Step(r, e), more)
  {
    StepsAdd(r, [e], more);
    assert [e][..0] == [] && Steps(r, []) == r;
    assert Steps(r, [e]) == Step(r, e);
  }

  lemma StopLasts(r: Recording, initial: nat, i: nat, more: seq<Event>)
    requires Inv(r, initial) && Feeding(r, i) && r.hops[i].filter.value.status.Transferring?
    ensures CompleteAt(Steps(r, [End(i)] + more), i, r.hops[i].filter.value.sent)
  {
    StepsFrom(r, End(i), more);
    StopIsComplete(r, initial, i);
    CompleteLasts(Step(r, End(i)), more, i, r.hops[i].filter.value.sent);
  }

  lemma StopIsComplete(r: Recording, initial: nat, i: nat)
    requires Inv(r, initial) && Feeding(r, i) && r.hops[i].filter.value.status.Transferring?
    ensures CompleteAt(Step(r, End(i)), i, r.hops[i].filter.value.sent)
  {
    StopCompletes(r, initial, i);
    var n := Step(r, End(i));
    StepKeeps(r, initial, End(i));
    assert HopOk(n.maxBodySize, n.stopped, n.hops[i]);
  }

  /** No other body is complete: one is exactly when the recorder closed its filter at the channel's stop. */
  lemma {:induction false} OnlyTheseAreComplete(maxBodySize: nat, budget: nat, es: seq<Event>, i: nat)
    requires var r := Steps(Fresh(maxBodySize, budget), es);
      i < |r.hops| && r.hops[i].filter.Some? && r.hops[i].body.Some?
    ensures var h := Steps(Fresh(maxBodySize, budget), es).hops[i];
      && (h.body.value.complete <==> h.filter.value.status.Closed?)
      && (h.body.value.complete ==> h.filter.value.ended && Concat(h.body.value.chunks) == h.filter.value.sent)
  {
    RunKeeps(Fresh(maxBodySize, budget), budget, es);
    var r := Steps(Fresh(maxBodySize, budget), es);
    assert HopOk(r.maxBodySize, r.stopped, r.hops[i]);
  }

  function Chunks(i: nat, ds: seq<seq<Byte>>): seq<Event> {
    seq(|ds|, k requires 0 <= k < |ds| => Data(i, ds[k]))
  }

  /** Hop `i` transfers and has `bytes` of its body. */
  predicate Taking(r: Recording, i: nat, bytes: seq<Byte>) {
    && !r.stopped && i < |r.hops| && r.hops[i].filter.Some? && !r.hops[i].filter.value.ended
    && r.hops[i].filter.value.status.Transferring? && r.hops[i].body.Some? && r.hops[i].filter.value.sent == bytes
  }

  /** A body that fits the cap and the budget is kept whole, in however many chunks it comes. */
  lemma {:induction false} FittingBodiesAreKept(r: Recording, initial: nat, i: nat, ds: seq<seq<Byte>>)
    requires Inv(r, initial) && Taking(r, i, []) && |Concat(ds)| <= r.maxBodySize && |Concat(ds)| <= r.budget
    ensures var n := Steps(r, Chunks(i, ds));
      && Taking(n, i, Concat(ds)) && Inv(n, initial) && n.budget == r.budget - |Concat(ds)|
      && n.maxBodySize == r.maxBodySize
    decreases |ds|
  {
    if ds != [] {
      var init, last := ds[..|ds| - 1], ds[|ds| - 1];
      FittingBodiesAreKept(r, initial, i, init);
      assert Chunks(i, ds)[..|ds| - 1] == Chunks(i, init);
      var b := Steps(r, Chunks(i, init));
      OneMoreKept(b, initial, i, last);
    }
  }

  /** So the channel's stop finds it complete. */
  lemma FittingBodiesComplete(r: Recording, initial: nat, i: nat, ds: seq<seq<Byte>>)
    requires Inv(r, initial) && Taking(r, i, []) && |Concat(ds)| <= r.maxBodySize && |Concat(ds)| <= r.budget
    ensures CompleteAt(Step(Steps(r, Chunks(i, ds)), End(i)), i, Concat(ds))
  {
    FittingBodiesAreKept(r, initial, i, ds);
    StopIsComplete(Steps(r, Chunks(i, ds)), initial, i);
  }

  lemma OneMoreKept(r: Recording, initial: nat, i: nat, data: seq<Byte>)
    requires Inv(r, initial) && i < |r.hops| && r.hops[i].filter.Some? && Taking(r, i, r.hops[i].filter.value.sent)
    requires |r.hops[i].filter.value.sent| + |data| <= r.maxBodySize && |data| <= r.budget
    ensures var n := Step(r, Data(i, data));
      && Inv(n, initial) && Taking(n, i, r.hops[i].filter.value.sent + data)
      && n.budget == r.budget - |data| && n.maxBodySize == r.maxBodySize
  {
    StepKeeps(r, initial, Data(i, data));
    assert HopOk(r.maxBodySize, r.stopped, r.hops[i]);
    ChunksAreKept(r.maxBodySize, r.budget, r.hops[i], data);
  }
}

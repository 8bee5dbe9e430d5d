/**
 The objects of extension/src/har-recorder.ts behind the machine of Tee: what is kept of a
 request body, and the callbacks of the stream filters, each proved to be a step of that machine.
 */
module Recorder {
  import opened Base
  import opened Utf8
  import opened Tee

  // ----- request bodies -----

  /** One name of a form with its values, in the order of `Object.entries`. */
  datatype Field = Field(name: Text, values: seq<Text>)

  /** One part of a raw body: its bytes, or a file whose bytes Firefox does not give. */
  datatype UploadData = UploadData(bytes: Option<seq<Byte>>, file: Option<Text>, truncated: bool,
      originalSize: Option<nat>)

  datatype RequestBody = Failed(error: Text) | Form(fields: seq<Field>) | Raw(parts: seq<UploadData>)

  /** What is kept of one. */
  datatype Kept = KeptError(error: Text) | KeptPairs(pairs: seq<(Text, Text)>) | KeptParts(parts: seq<UploadData>)

  /** A form as the pairs it sends. */
  function Pairs(fields: seq<Field>): seq<(Text, Text)> {
    if fields == [] then []
    else
      var last := fields[|fields| - 1];
      Pairs(fields[..|fields| - 1]) + FieldPairs(last, |last.values|)
  }

  function FieldPairs(f: Field, n: nat): seq<(Text, Text)>
    requires n <= |f.values|
  {
    seq(n, i requires 0 <= i < n => (f.name, f.values[i]))
  }

  function PairSize(p: (Text, Text)): nat {
    |Encode(p.0)| + |Encode(p.1)|
  }

  function PairsSize(pairs: seq<(Text, Text)>): nat {
    if pairs == [] then 0 else PairsSize(pairs[..|pairs| - 1]) + PairSize(pairs[|pairs| - 1])
  }

  lemma {:induction false} PairsSizeAdd(a: seq<(Text, Text)>, b: seq<(Text, Text)>)
    ensures PairsSize(a + b) == PairsSize(a) + PairsSize(b)
  {
    if b == [] {
      assert a + b == a;
    } else {
      assert (a + b)[..|a + b| - 1] == a + b[..|b| - 1];
      PairsSizeAdd(a, b[..|b| - 1]);
    }
  }

  lemma PairsAdd(fields: seq<Field>, f: Field)
    ensures Pairs(fields + [f]) == Pairs(fields) + FieldPairs(f, |f.values|)
  {
    assert (fields + [f])[..|fields|] == fields;
  }

  lemma {:induction false} PairsPrefix(fields: seq<Field>, i: nat, j: nat)
    requires i < |fields| && j <= |fields[i].values|
    ensures Pairs(fields[..i]) + FieldPairs(fields[i], j) <= Pairs(fields)
  {
    var last := fields[|fields| - 1];
    var init := fields[..|fields| - 1];
    if i == |fields| - 1 {
      assert FieldPairs(last, j) == FieldPairs(last, |last.values|)[..j];
    } else {
      PairsPrefix(init, i, j);
      assert init[..i] == fields[..i];
    }
  }

  /** The values of one name, as many as fit `room`. */
  method CutField(f: Field, room: nat) returns (n: nat, used: nat)
    ensures n <= |f.values| && used == PairsSize(FieldPairs(f, n)) <= room
    ensures n < |f.values| ==> PairsSize(FieldPairs(f, n + 1)) > room
  {
    n, used := 0, 0;
    while n < |f.values|
      invariant n <= |f.values| && used == PairsSize(FieldPairs(f, n)) <= room
    {
      var nameSize := Utf8Length(f.name);
      var valueSize := Utf8Length(f.values[n]);
      assert FieldPairs(f, n + 1)[..n] == FieldPairs(f, n);
      if used + nameSize + valueSize > room {
        return;
      }
      used := used + nameSize + valueSize;
      n := n + 1;
    }
  }

  /** `kept` are the first of the pairs, as many as fit. */
  predicate LongestRun(pairs: seq<(Text, Text)>, kept: seq<(Text, Text)>, limit: nat) {
    && kept <= pairs && PairsSize(kept) <= limit
    && (kept != pairs ==> PairsSize(pairs[..|kept| + 1]) > limit)
  }

  /** `cutForm`: the longest run of whole pairs, from the first on, that fits the limit. */
  method CutForm(fields: seq<Field>, limit: nat) returns (kept: seq<(Text, Text)>, used: nat, cut: bool)
    ensures LongestRun(Pairs(fields), kept, limit) && used == PairsSize(kept)
    ensures cut <==> kept != Pairs(fields)
  {
    kept, used, cut := [], 0, false;
    for i := 0 to |fields|
      invariant kept == Pairs(fields[..i]) && used == PairsSize(kept) <= limit
    {
      var n, more := CutField(fields[i], limit - used);
      if n < |fields[i].values| {
        CutShort(fields, i, n, limit);
        return kept + FieldPairs(fields[i], n), used + more, true;
      }
      WholeField(fields, i);
      kept, used := kept + FieldPairs(fields[i], n), used + more;
    }
    assert fields[..|fields|] == fields;
  }

  lemma WholeField(fields: seq<Field>, i: nat)
    requires i < |fields|
    ensures var f := fields[i]; var more := FieldPairs(f, |f.values|);
      && Pairs(fields[..i + 1]) == Pairs(fields[..i]) + more
      && PairsSize(Pairs(fields[..i]) + more) == PairsSize(Pairs(fields[..i])) + PairsSize(more)
  {
    assert fields[..i + 1] == fields[..i] + [fields[i]];
    PairsAdd(fields[..i], fields[i]);
    PairsSizeAdd(Pairs(fields[..i]), FieldPairs(fields[i], |fields[i].values|));
  }

  /** Stopping before value `n` of field `i`, which does not fit any more, keeps the longest run that does. */
  lemma CutShort(fields: seq<Field>, i: nat, n: nat, limit: nat)
    requires i < |fields| && n < |fields[i].values|
    requires var room := limit - PairsSize(Pairs(fields[..i]));
      PairsSize(FieldPairs(fields[i], n)) <= room < PairsSize(FieldPairs(fields[i], n + 1))
    ensures var before := Pairs(fields[..i]); var kept := before + FieldPairs(fields[i], n);
      && LongestRun(Pairs(fields), kept, limit) && kept != Pairs(fields)
      && PairsSize(kept) == PairsSize(before) + PairsSize(FieldPairs(fields[i], n))
  {
    var before, f := Pairs(fields[..i]), fields[i];
    PairsPrefix(fields, i, n);
    PairsPrefix(fields, i, n + 1);
    PairsSizeAdd(before, FieldPairs(f, n));
    PairsSizeAdd(before, FieldPairs(f, n + 1));
    RunEnds(Pairs(fields), before + FieldPairs(f, n), before + FieldPairs(f, n + 1), limit);
  }

  lemma RunEnds(pairs: seq<(Text, Text)>, kept: seq<(Text, Text)>, next: seq<(Text, Text)>, limit: nat)
    requires kept <= pairs && next <= pairs && |next| == |kept| + 1
    requires PairsSize(kept) <= limit < PairsSize(next)
    ensures LongestRun(pairs, kept, limit) && kept != pairs
  {
    assert pairs[..|kept| + 1] == next;
  }

  function PartBytes(part: UploadData): seq<Byte> {
    if part.bytes.Some? then part.bytes.value else []
  }

  function Bytes(parts: seq<UploadData>): seq<Byte> {
    if parts == [] then [] else Bytes(parts[..|parts| - 1]) + PartBytes(parts[|parts| - 1])
  }

  lemma BytesAdd(parts: seq<UploadData>, part: UploadData)
    ensures Bytes(parts + [part]) == Bytes(parts) + PartBytes(part)
  {
    assert (parts + [part])[..|parts|] == parts;
  }

  function First(bytes: seq<Byte>, limit: nat): (first: seq<Byte>)
    ensures |first| == Min(limit, |bytes|)
  {
    bytes[..Min(limit, |bytes|)]
  }

  function TrimTo(part: UploadData, room: nat): UploadData {
    if part.bytes.None? then part else part.(bytes := Some(First(part.bytes.value, room)))
  }

  /** Part `i` with the bytes that the parts before it leave room for. */
  function Trimmed(raw: seq<UploadData>, i: nat, limit: nat): UploadData
    requires i < |raw|
  {
    TrimTo(raw[i], limit - Min(limit, |Bytes(raw[..i])|))
  }

  /** Every part stays, trimmed, and together they hold the first `limit` bytes. */
  predicate FirstBytes(raw: seq<UploadData>, parts: seq<UploadData>, limit: nat) {
    && |parts| == |raw|
    && (forall i :: 0 <= i < |raw| ==> parts[i] == Trimmed(raw, i, limit))
    && Bytes(parts) == First(Bytes(raw), limit)
  }

  lemma BytesUpTo(raw: seq<UploadData>, i: nat)
    requires i < |raw|
    ensures Bytes(raw[..i + 1]) == Bytes(raw[..i]) + PartBytes(raw[i])
  {
    assert raw[..i + 1] == raw[..i] + [raw[i]];
    BytesAdd(raw[..i], raw[i]);
  }

  /** The first `limit` bytes of two texts together. */
  lemma CutOne(before: seq<Byte>, part: seq<Byte>, limit: nat)
    ensures First(before + part, limit) == First(before, limit) + First(part, limit - |First(before, limit)|)
  {}

  /** One part, cut to the room left. */
  method CutPart(part: UploadData, room: nat) returns (copy: UploadData, length: nat, cut: bool)
    ensures copy == TrimTo(part, room) && PartBytes(copy) == First(PartBytes(part), room)
    ensures length == |PartBytes(copy)| && (cut <==> |PartBytes(part)| > room)
  {
    copy, length, cut := part, 0, false;
    if part.bytes.Some? {
      length := Min(room, |part.bytes.value|);
      cut := length < |part.bytes.value|;
      copy := copy.(bytes := Some(part.bytes.value[..length]));
    }
  }

  /** `cutRaw`: every part stays, with the first `limit` bytes of all of them together. */
  method CutRaw(raw: seq<UploadData>, limit: nat) returns (parts: seq<UploadData>, used: nat, cut: bool)
    ensures FirstBytes(raw, parts, limit) && used == |Bytes(parts)| <= limit
    ensures cut <==> |Bytes(raw)| > limit
  {
    parts, used, cut := [], 0, false;
    for i := 0 to |raw|
      invariant AllTrimmed(raw, i, parts, limit)
      invariant used == Min(limit, |Bytes(raw[..i])|)
      invariant cut <==> |Bytes(raw[..i])| > limit
    {
      var copy, length, short := CutPart(raw[i], limit - used);
      BytesUpTo(raw, i);
      OneMoreTrimmed(raw, i, parts, limit);
      parts, used, cut := parts + [copy], used + length, cut || short;
    }
    assert raw[..|raw|] == raw;
    TrimmedBytes(raw, |raw|, parts, limit);
  }

  predicate AllTrimmed(raw: seq<UploadData>, i: nat, parts: seq<UploadData>, limit: nat) {
    |parts| == i <= |raw| && forall k :: 0 <= k < i ==> parts[k] == Trimmed(raw, k, limit)
  }

  lemma OneMoreTrimmed(raw: seq<UploadData>, i: nat, parts: seq<UploadData>, limit: nat)
    requires i < |raw| && AllTrimmed(raw, i, parts, limit)
    ensures AllTrimmed(raw, i + 1, parts + [Trimmed(raw, i, limit)], limit)
  {}

  /** Trimmed one by one, the parts hold the first `limit` bytes of all of them together. */
  lemma {:induction false} TrimmedBytes(raw: seq<UploadData>, i: nat, parts: seq<UploadData>, limit: nat)
    requires AllTrimmed(raw, i, parts, limit)
    ensures Bytes(parts) == First(Bytes(raw[..i]), limit)
    decreases i
  {
    if i > 0 {
      var init := parts[..i - 1];
      TrimmedBytes(raw, i - 1, init, limit);
      BytesUpTo(raw, i - 1);
      FirstOfBoth(Bytes(raw[..i - 1]), raw[i - 1], limit);
    }
  }

  lemma FirstOfBoth(before: seq<Byte>, part: UploadData, limit: nat)
    ensures First(before + PartBytes(part), limit)
         == First(before, limit) + PartBytes(TrimTo(part, limit - Min(limit, |before|)))
  {
    CutOne(before, PartBytes(part), limit);
  }

  /** `hasPayload`. */
  predicate HasPayload(body: RequestBody) {
    match body
    case Failed(_) => false
    case Form(fields) => fields != []
    case Raw(parts) => exists i :: 0 <= i < |parts| && PartBytes(parts[i]) != []
  }

  lemma NoPayloadNoBytes(parts: seq<UploadData>)
    requires !HasPayload(Raw(parts))
    ensures Bytes(parts) == []
  {
    if parts != [] {
      NoPayloadNoBytes(parts[..|parts| - 1]);
    }
  }

  function KeptSize(kept: Kept): nat {
    match kept
    case KeptError(_) => 0
    case KeptPairs(pairs) => PairsSize(pairs)
    case KeptParts(parts) => |Bytes(parts)|
  }

  /** `kept` is the prefix of the body that fits the limit, and `cut` tells whether that is less than all of it. */
  predicate IsCut(body: RequestBody, limit: nat, kept: Kept, cut: bool) {
    && KeptSize(kept) <= limit
    && match body
       case Failed(error) => kept == KeptError(error) && !cut
       case Form(fields) =>
         kept.KeptPairs? && LongestRun(Pairs(fields), kept.pairs, limit) && (cut <==> kept.pairs != Pairs(fields))
       case Raw(raw) => kept.KeptParts? && FirstBytes(raw, kept.parts, limit) && (cut <==> |Bytes(raw)| > limit)
  }

  /** `cutBody`. */
  method CutBody(body: RequestBody, limit: nat) returns (kept: Kept, used: nat, cut: bool)
    ensures IsCut(body, limit, kept, cut) && used == KeptSize(kept)
  {
    match body
    case Failed(error) => kept, used, cut := KeptError(error), 0, false;
    case Form(fields) =>
      var pairs;
      pairs, used, cut := CutForm(fields, limit);
      kept := KeptPairs(pairs);
    case Raw(raw) =>
      var parts;
      parts, used, cut := CutRaw(raw, limit);
      kept := KeptParts(parts);
  }

  /** Of a body without payload nothing is kept. */
  lemma NothingToKeep(body: RequestBody, limit: nat, kept: Kept, cut: bool)
    requires IsCut(body, limit, kept, cut) && !HasPayload(body)
    ensures KeptSize(kept) == 0
  {
    match body
    case Failed(_) =>
    case Form(fields) => assert Pairs(fields) == [];
    case Raw(raw) => NoPayloadNoBytes(raw);
  }

  /** `stored` and `cut` of a hop. */
  datatype Store = Store(body: Kept, cut: bool)

  function Paid(store: Option<Store>): nat {
    if store.Some? then KeptSize(store.value.body) else 0
  }

  /** A hop dropped its request body whole or paid for what it stored of it. */
  predicate StoreOk(h: Hop, store: Option<Store>) {
    && (store.Some? ==> !h.requestDropped)
    && h.requestStored == Paid(store)
  }

  predicate StoresOk(hops: seq<Hop>, stores: seq<Option<Store>>) {
    |stores| == |hops| && forall i :: 0 <= i < |hops| ==> StoreOk(hops[i], stores[i])
  }

  // ----- the recording -----

  class HarRecording {
    const maxBodySize: nat
    var budget: int
    var hops: seq<Hop>
    var stopped: bool
    var stores: seq<Option<Store>>    // what each hop stored of its request body
    ghost const initial: nat

    constructor (maxBodySize: nat, bodyBudget: nat)
      ensures View() == Fresh(maxBodySize, bodyBudget) && stores == [] && Sound()
    {
      this.maxBodySize := maxBodySize;
      budget, hops, stopped, stores := bodyBudget, [], false, [];
      initial := bodyBudget;
    }

    function View(): Recording
      reads this
    {
      Recording(maxBodySize, budget, stopped, hops)
    }

    /** What holds between any two events. */
    ghost predicate Sound()
      reads this
    {
      Inv(View(), initial) && StoresOk(hops, stores)
    }

    /** `storeBody`: a payload is dropped whole once the budget is spent; else the prefix that cap and
        budget have room for is kept and paid for. */
    method StoreBody(body: RequestBody) returns (kept: Option<Store>, dropped: bool)
      requires budget >= 0
      modifies this`budget
      ensures dropped <==> HasPayload(body) && old(budget) <= 0
      ensures kept.None? <==> dropped
      ensures kept.Some? ==> IsCut(body, Min(maxBodySize, old(budget)), kept.value.body, kept.value.cut)
      ensures budget == old(budget) - Paid(kept)
      ensures Paid(kept) == RequestBytes(old(View()), HasPayload(body), Paid(kept))
    {
      if budget <= 0 && HasPayload(body) {
        return None, true;
      }
      var limit := Min(maxBodySize, budget);
      var stored, used, cut := CutBody(body, limit);
      if !HasPayload(body) {
        NothingToKeep(body, limit, stored, cut);
      }
      budget := budget - used;
      return Some(Store(stored, cut)), false;
    }

    /** `captureResponse` for the hop just opened; `opens` is what filterResponseData does. */
    method CaptureResponse(h: Hop, opens: bool) returns (captured: Hop)
      ensures captured == Capture(View(), h, opens)
    {
      if budget <= 0 {
        return h.(bodyDropped := true);
      }
      captured := h.(body := Some(Body([], false, false, 0, false)));
      if !opens {
        return captured.(body := Some(captured.body.value.(error := true)));
      }
      captured := captured.(filter := Some(OPENED));
    }

    /** `beforeRequest`, as far as bodies go: one more hop, and what it stored of its request. */
    method BeforeRequest(body: Option<RequestBody>, opens: bool) returns (kept: Option<Store>)
      requires budget >= 0 && !stopped && maxBodySize > 0
      modifies this`budget, this`hops, this`stores
      ensures View() == Step(old(View()), Request(body.Some? && HasPayload(body.value), Paid(kept), opens))
      ensures stores == old(stores) + [kept]
      ensures kept.Some? ==>
        body.Some? && IsCut(body.value, Min(maxBodySize, old(budget)), kept.value.body, kept.value.cut)
      ensures kept.None? && body.Some? ==> HasPayload(body.value) && old(budget) <= 0
      ensures |hops| == |old(hops)| + 1 && hops[..|old(hops)|] == old(hops) && StoreOk(hops[|old(hops)|], kept)
    {
      var dropped := false;
      kept := None;
      if body.Some? {
        kept, dropped := StoreBody(body.value);
      }
      var h := CaptureResponse(Hop(Paid(kept), dropped, None, 0, 0, None, false), opens);
      hops := hops + [h];
      stores := stores + [kept];
    }

    /** The `ondata` callback of hop `i`, the channel having just delivered `data`. */
    method OnData(i: nat, data: seq<Byte>)
      requires Feeding(View(), i) && hops[i].filter.value.status.Transferring? && hops[i].body.Some?
      modifies this`budget, this`hops
      ensures View() == Step(old(View()), Data(i, data))
    {
      var h := hops[i];
      var filter := h.filter.value.(sent := h.filter.value.sent + data).Write(data);
      if stopped {
        hops := hops[i := h.(filter := Some(filter))];
        return;
      }
      var body := h.body.value;
      var stored := h.stored;
      var seen := h.seen + |data|;
      var length := Min(Min(maxBodySize - stored, budget), |data|);
      if length > 0 {
        body := body.(chunks := body.chunks + [data[..length]]);
        stored := stored + length;
        budget := budget - length;
      }
      if length >= |data| {
        hops := hops[i := h.(filter := Some(filter), stored := stored, seen := seen, body := Some(body))];
        return;
      }
      filter := filter.Disconnect();
      if stored == 0 {
        hops := hops[i := h.(filter := Some(filter), stored := stored, seen := seen, body := None,
          bodyDropped := true)];
        return;
      }
      body := body.(truncated := true, size := seen);
      hops := hops[i := h.(filter := Some(filter), stored := stored, seen := seen, body := Some(body))];
    }

    /** The `onstop` callback of hop `i`. */
    method OnStop(i: nat)
      requires Feeding(View(), i) && hops[i].filter.value.status.Transferring? && hops[i].body.Some?
      modifies this`hops
      ensures View() == Step(old(View()), End(i))
    {
      var h := hops[i];
      var filter := h.filter.value.(ended := true, status := FinishedTransferring).Close();
      var body := h.body.value;
      if !stopped {
        body := body.(complete := true);
      }
      hops := hops[i := h.(filter := Some(filter), body := Some(body))];
    }

    /** `releaseFilters`, by status. */
    method ReleaseFilters()
      modifies this`hops, this`stopped
      ensures View() == Step(old(View()), Stop)
    {
      stopped := true;
      var all := hops;
      for i := 0 to |all|
        invariant stopped && |hops| == |all|
        invariant forall k :: 0 <= k < i ==> hops[k] == ReleaseHop(all[k])
        invariant forall k :: i <= k < |all| ==> hops[k] == all[k]
      {
        if hops[i].filter.Some? {
          var filter := hops[i].filter.value;
          match filter.status {
            case Transferring => filter := filter.Disconnect();
            case Suspended => filter := filter.Disconnect();
            case FinishedTransferring => filter := filter.Disconnect();
            case Uninitialized => filter := filter.(released := true);
            case _ =>
          }
          hops := hops[i := hops[i].(filter := Some(filter))];
        }
      }
      var released := Step(old(View()), Stop);
      assert hops == released.hops && View() == released.(hops := hops);
    }

    // ----- the listeners -----

    method OnBeforeRequest(body: Option<RequestBody>, opens: bool) returns (kept: Option<Store>)
      requires Sound() && !stopped && maxBodySize > 0
      modifies this`budget, this`hops, this`stores
      ensures Sound() && View() == Step(old(View()), Request(body.Some? && HasPayload(body.value), Paid(kept), opens))
      ensures stores == old(stores) + [kept]
      ensures kept.Some? ==>
        body.Some? && IsCut(body.value, Min(maxBodySize, old(budget)), kept.value.body, kept.value.cut)
    {
      ghost var was := View();
      ghost var before := stores;
      kept := BeforeRequest(body, opens);
      StoreAdded(was.hops, before, hops, kept);
      StepKeeps(was, initial, Request(body.Some? && HasPayload(body.value), Paid(kept), opens));
    }

    /** An event of a channel: the callbacks the recorder put on its filter, or Firefox on its own. */
    method OnChannel(e: Event)
      requires Sound() && !e.Request? && !e.Stop?
      modifies this`budget, this`hops
      ensures Sound() && View() == Step(old(View()), e)
    {
      ghost var was := View();
      Callback(e);
      StepKeeps(was, initial, e);
      ChannelKeepsRequests(was, e);
    }

    method Callback(e: Event)
      requires !e.Request? && !e.Stop?
      modifies this`budget, this`hops
      ensures View() == Step(old(View()), e)
    {
      var handled := Feeding(View(), e.i) && hops[e.i].filter.value.status.Transferring? && hops[e.i].body.Some?;
      if e.Data? && handled {
        OnData(e.i, e.data);
      } else if e.End? && handled {
        OnStop(e.i);
      } else {
        var next := Step(View(), e);
        budget, hops := next.budget, next.hops;
      }
    }

    /** The recording ends: whatever was started is released, and nothing more is stored. */
    method OnStopHar()
      requires Sound()
      modifies this`hops, this`stopped
      ensures Sound() && stopped && View() == Step(old(View()), Stop)
    {
      ghost var was := View();
      ReleaseFilters();
      StepKeeps(was, initial, Stop);
    }
  }

  lemma StoreAdded(hops: seq<Hop>, stores: seq<Option<Store>>, more: seq<Hop>, store: Option<Store>)
    requires StoresOk(hops, stores) && |more| == |hops| + 1 && more[..|hops|] == hops && StoreOk(more[|hops|], store)
    ensures StoresOk(more, stores + [store])
  {
    forall i | 0 <= i < |hops| ensures StoreOk(more[i], stores[i]) {
      assert more[i] == more[..|hops|][i];
    }
  }

  /** No event of a channel touches what a hop says of its request body. */
  lemma ChannelKeepsRequests(r: Recording, e: Event)
    requires !e.Request?
    ensures var n := Step(r, e);
      && |n.hops| == |r.hops|
      && forall k :: 0 <= k < |r.hops| ==>
           n.hops[k].requestStored == r.hops[k].requestStored && n.hops[k].requestDropped == r.hops[k].requestDropped
  {
  }
}

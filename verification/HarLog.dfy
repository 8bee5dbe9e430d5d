/**
 The HAR log and its fitting to a reply limit (extension/src/har.ts, `shell` to `fitLog`), with
 the counter of dropped bodies. Entries are JSON objects: the members the fitter reads or writes
 are found by key, all others are carried along as they are.
 */
module HarLog {
  import opened Base
  import opened Utf8
  import opened Json

  // ----- objects as member lists -----

  function Key(s: string): (r: Text)
    ensures |r| == |s|
  {
    seq(|s|, i requires 0 <= i < |s| => if s[i] as int < 0x10000 then s[i] as int else 0)
  }

  const TEXT := Key("text")
  const PARAMS := Key("params")
  const ENCODING := Key("encoding")
  const BODY_DROPPED := Key("_bodyDropped")
  const TRUE: Json := Literal([0x74, 0x72, 0x75, 0x65])

  function Get(members: seq<Member>, key: Text): Option<Json> {
    if members == [] then None
    else if members[0].key == key then Some(members[0].value)
    else Get(members[1..], key)
  }

  /** Destructuring: the rest of an object without two of its keys. */
  function Without(members: seq<Member>, k1: Text, k2: Text): seq<Member> {
    if members == [] then []
    else (if members[0].key == k1 || members[0].key == k2 then [] else [members[0]]) + Without(members[1..], k1, k2)
  }

  /** Assignment: in place when the key is there, else at the end. */
  function Put(members: seq<Member>, key: Text, value: Json): seq<Member> {
    if members == [] then [Member(key, value)]
    else if members[0].key == key then [Member(key, value)] + members[1..]
    else [members[0]] + Put(members[1..], key, value)
  }

  lemma {:induction false} GetWithout(members: seq<Member>, k1: Text, k2: Text, key: Text)
    ensures Get(Without(members, k1, k2), key) == if key == k1 || key == k2 then None else Get(members, key)
  {
    if members != [] {
      GetWithout(members[1..], k1, k2, key);
      var rest := Without(members[1..], k1, k2);
      assert ([members[0]] + rest)[1..] == rest;
      assert [] + rest == rest;
    }
  }

  lemma {:induction false} GetPut(members: seq<Member>, k: Text, value: Json, key: Text)
    ensures Get(Put(members, k, value), key) == if key == k then Some(value) else Get(members, key)
  {
    if members != [] {
      GetPut(members[1..], k, value, key);
      assert ([members[0]] + Put(members[1..], k, value))[1..] == Put(members[1..], k, value);
    }
  }

  // ----- entries -----

  /** The members of an entry around `request` and `response`, and of those around
      `postData` and `content`. */
  datatype HarEntry = HarEntry(
    head: seq<Member>,
    request: seq<Member>, post: Option<seq<Member>>,
    response: seq<Member>, content: seq<Member>, responseTail: seq<Member>,
    tail: seq<Member>)

  function EntryJson(e: HarEntry): Json {
    var post := if e.post.Some? then [Member(Key("postData"), Obj(e.post.value))] else [];
    Obj(e.head
        + [Member(Key("request"), Obj(e.request + post)),
           Member(Key("response"), Obj(e.response + [Member(Key("content"), Obj(e.content))] + e.responseTail))]
        + e.tail)
  }

  predicate FilledText(text: Option<Json>) {
    text.Some? && text.value.Str? && text.value.value != []
  }

  predicate FilledPost(post: Option<seq<Member>>) {
    post.Some? &&
    var params := Get(post.value, PARAMS);
    FilledText(Get(post.value, TEXT)) || (params.Some? && params.value.Arr? && params.value.items != [])
  }

  predicate FilledContent(content: seq<Member>) {
    FilledText(Get(content, TEXT))
  }

  predicate HasPayload(e: HarEntry) {
    FilledContent(e.content) || FilledPost(e.post)
  }

  function Shell(e: HarEntry): (HarEntry, nat) {
    var content := if FilledContent(e.content) then Put(Without(e.content, TEXT, ENCODING), BODY_DROPPED, TRUE)
      else e.content;
    var post := if FilledPost(e.post) then Some(Put(Without(e.post.value, TEXT, PARAMS), BODY_DROPPED, TRUE))
      else e.post;
    (e.(content := content, post := post),
     (if FilledContent(e.content) then 1 else 0) + (if FilledPost(e.post) then 1 else 0))
  }

  // ----- the dropped bodies -----

  predicate Flagged(members: seq<Member>) {
    Get(members, BODY_DROPPED) == Some(TRUE)
  }

  function Flags(e: HarEntry): nat {
    (if Flagged(e.content) then 1 else 0) + (if e.post.Some? && Flagged(e.post.value) then 1 else 0)
  }

  function CountFlags(entries: seq<HarEntry>): nat {
    if entries == [] then 0 else CountFlags(entries[..|entries| - 1]) + Flags(entries[|entries| - 1])
  }

  /** `countBodies(entries, "_bodyDropped")`. */
  method CountBodies(entries: seq<HarEntry>) returns (count: nat)
    ensures count == CountFlags(entries)
  {
    count := 0;
    for i := 0 to |entries|
      invariant count == CountFlags(entries[..i])
    {
      assert entries[..i + 1][..i] == entries[..i];
      count := count + (if Flagged(entries[i].content) then 1 else 0);
      count := count + (if entries[i].post.Some? && Flagged(entries[i].post.value) then 1 else 0);
    }
    assert entries[..|entries|] == entries;
  }

  lemma {:induction false} CountReplaced(entries: seq<HarEntry>, i: nat, e: HarEntry)
    requires i < |entries|
    ensures CountFlags(entries[i := e]) == CountFlags(entries) - Flags(entries[i]) + Flags(e)
  {
    var n := |entries| - 1;
    if i == n {
      assert entries[i := e][..n] == entries[..n];
    } else {
      CountReplaced(entries[..n], i, e);
      assert entries[i := e][..n] == entries[..n][i := e];
    }
  }

  /** No body carries both the flag and a payload. */
  predicate Exclusive(e: HarEntry) {
    && !(Flagged(e.content) && FilledContent(e.content))
    && !(e.post.Some? && Flagged(e.post.value) && FilledPost(e.post))
  }

  /** A shell has no payload, and as many more flags as it lost bodies, provided no body had both before. */
  lemma ShellFlags(e: HarEntry)
    requires Exclusive(e)
    ensures var (s, bodies) := Shell(e); Exclusive(s) && !HasPayload(s) && Flags(s) == Flags(e) + bodies
    ensures Shell(e).0.head == e.head && Shell(e).0.request == e.request && Shell(e).0.response == e.response
      && Shell(e).0.tail == e.tail
  {
    var rest := Without(e.content, TEXT, ENCODING);
    GetWithout(e.content, TEXT, ENCODING, TEXT);
    GetPut(rest, BODY_DROPPED, TRUE, TEXT);
    GetPut(rest, BODY_DROPPED, TRUE, BODY_DROPPED);
    if e.post.Some? {
      var post := Without(e.post.value, TEXT, PARAMS);
      GetWithout(e.post.value, TEXT, PARAMS, TEXT);
      GetWithout(e.post.value, TEXT, PARAMS, PARAMS);
      GetPut(post, BODY_DROPPED, TRUE, TEXT);
      GetPut(post, BODY_DROPPED, TRUE, PARAMS);
      GetPut(post, BODY_DROPPED, TRUE, BODY_DROPPED);
    }
  }

  // ----- the log and its reply -----

  /** `before` and `after` are the members of `_recording` around `droppedBodies`. */
  datatype Har = Har(head: seq<Member>, entries: seq<HarEntry>, before: seq<Member>, dropped: nat, after: seq<Member>)

  function EntriesJson(entries: seq<HarEntry>): seq<Json> {
    seq(|entries|, i requires 0 <= i < |entries| => EntryJson(entries[i]))
  }

  function RecordingMembers(h: Har): seq<Member> {
    h.before + [Member(Key("droppedBodies"), Number(h.dropped))] + h.after
  }

  function LogMembers(h: Har): seq<Member> {
    h.head + [Member(Key("entries"), Arr(EntriesJson(h.entries))), Member(Key("_recording"), Obj(RecordingMembers(h)))]
  }

  function HarJson(h: Har): Json {
    Obj([Member(Key("log"), Obj(LogMembers(h)))])
  }

  const ENVELOPE_ID := Key("00000000-0000-0000-0000-000000000000")

  /** `{id, success, result}`, as the dispatcher sends it. */
  function Envelope(result: Json): Json {
    Obj([Member(Key("id"), Str(ENVELOPE_ID)), Member(Key("success"), TRUE), Member(Key("result"), result)])
  }

  /** `replyBytes`. */
  function ReplyBytes(h: Har): nat {
    Length(Print(Envelope(HarJson(h))))
  }

  function EntrySize(e: HarEntry): nat {
    Size(EntryJson(e))
  }

  lemma ObjSize(members: seq<Member>)
    ensures Size(Obj(members)) == 2 + MembersSize(members)
  {
    PrintWellFormed(Obj(members));
  }

  lemma ValueReplaced(members: seq<Member>, i: nat, value: Json, members': seq<Member>)
    requires i < |members| && members' == members[i := members[i].(value := value)]
    ensures Size(Obj(members')) == Size(Obj(members)) - Size(members[i].value) + Size(value)
  {
    MemberReplaced(members, i, value);
    ObjSize(members);
    ObjSize(members');
  }

  /** A reply grows by exactly what its log grows. */
  lemma EnvelopeAdds(a: Json, b: Json)
    ensures Size(Envelope(a)) - Size(a) == Size(Envelope(b)) - Size(b)
  {
    var members := Envelope(a).members;
    ValueReplaced(members, 2, b, Envelope(b).members);
  }

  lemma LogAdds(h: Har, h': Har)
    requires h'.head == h.head
    ensures Size(Obj(LogMembers(h'))) == Size(Obj(LogMembers(h)))
      - Size(Arr(EntriesJson(h.entries))) + Size(Arr(EntriesJson(h'.entries)))
      - Size(Obj(RecordingMembers(h))) + Size(Obj(RecordingMembers(h')))
  {
    var members := LogMembers(h);
    var n := |h.head|;
    var middle := members[n := members[n].(value := Arr(EntriesJson(h'.entries)))];
    ValueReplaced(members, n, Arr(EntriesJson(h'.entries)), middle);
    ValueReplaced(middle, n + 1, Obj(RecordingMembers(h')), LogMembers(h'));
  }

  /** Replacing an entry and raising the counter changes the reply by the difference of the two
      entries and of the digits of the two counters. */
  lemma ReplyChange(h: Har, i: nat, e: HarEntry, dropped: nat)
    requires i < |h.entries|
    ensures ReplyBytes(h.(entries := h.entries[i := e], dropped := dropped))
        == ReplyBytes(h) - EntrySize(h.entries[i]) + EntrySize(e) - |Decimal(h.dropped)| + |Decimal(dropped)|
  {
    var h' := h.(entries := h.entries[i := e], dropped := dropped);
    EnvelopeAdds(HarJson(h), HarJson(h'));
    ValueReplaced(HarJson(h).members, 0, Obj(LogMembers(h')), HarJson(h').members);
    LogAdds(h, h');
    PrintWellFormed(Arr(EntriesJson(h.entries)));
    PrintWellFormed(Arr(EntriesJson(h'.entries)));
    assert EntriesJson(h'.entries) == EntriesJson(h.entries)[i := EntryJson(e)];
    ItemReplaced(EntriesJson(h.entries), i, EntryJson(e));
    NumberSize(h.dropped);
    NumberSize(dropped);
    ValueReplaced(RecordingMembers(h), |h.before|, Number(dropped), RecordingMembers(h'));
  }

  // ----- candidates, largest saving first -----

  datatype Candidate = Candidate(index: nat, shell: HarEntry, bodies: nat, saving: int)

  function CandidateOf(entries: seq<HarEntry>, i: nat): Candidate
    requires i < |entries|
  {
    var (s, bodies) := Shell(entries[i]);
    Candidate(i, s, bodies, EntrySize(entries[i]) - EntrySize(s))
  }

  predicate Saves(entries: seq<HarEntry>, i: nat)
    requires i < |entries|
  {
    HasPayload(entries[i]) && CandidateOf(entries, i).saving > 0
  }

  /** The candidate of each entry that a drop makes smaller. */
  function Offers(entries: seq<HarEntry>): (offers: seq<Option<Candidate>>)
    ensures |offers| == |entries|
    ensures forall i :: 0 <= i < |offers| && offers[i].Some? ==> offers[i].value.index == i
  {
    seq(|entries|, i requires 0 <= i < |entries| => if Saves(entries, i) then Some(CandidateOf(entries, i)) else None)
  }

  function Pick(offers: seq<Option<Candidate>>): seq<Candidate> {
    if offers == [] then []
    else
      var last := offers[|offers| - 1];
      Pick(offers[..|offers| - 1]) + if last.Some? then [last.value] else []
  }

  lemma PickAdd(offers: seq<Option<Candidate>>, n: nat)
    requires n < |offers|
    ensures Pick(offers[..n + 1]) == Pick(offers[..n]) + if offers[n].Some? then [offers[n].value] else []
  {
    assert offers[..n + 1][..n] == offers[..n];
  }

  predicate Indexed(offers: seq<Option<Candidate>>) {
    forall i :: 0 <= i < |offers| && offers[i].Some? ==> offers[i].value.index == i
  }

  lemma {:induction false} PickMembers(offers: seq<Option<Candidate>>, c: Candidate)
    requires Indexed(offers)
    ensures c in Pick(offers) <==> c.index < |offers| && offers[c.index] == Some(c)
  {
    if offers != [] { PickMembers(offers[..|offers| - 1], c); }
  }

  predicate InOrder(found: seq<Candidate>) {
    forall i, j :: 0 <= i < j < |found| ==> found[i].index < found[j].index
  }

  lemma {:induction false} PickInOrder(offers: seq<Option<Candidate>>)
    requires Indexed(offers)
    ensures InOrder(Pick(offers))
  {
    if offers != [] {
      var before := offers[..|offers| - 1];
      var found := Pick(before);
      PickInOrder(before);
      forall i | 0 <= i < |found| ensures found[i].index < |before| {
        assert found[i] in found;
        PickMembers(before, found[i]);
      }
    }
  }

  /** Larger savings come first, equal savings in log order. */
  predicate Before(a: Candidate, b: Candidate) {
    a.saving > b.saving || (a.saving == b.saving && a.index < b.index)
  }

  predicate Ordered(queue: seq<Candidate>) {
    forall i, j :: 0 <= i < j < |queue| ==> Before(queue[i], queue[j])
  }

  /** One insertion of a stable sort by descending saving. */
  function Insert(queue: seq<Candidate>, c: Candidate): seq<Candidate> {
    if queue != [] && c.saving > queue[|queue| - 1].saving
    then Insert(queue[..|queue| - 1], c) + [queue[|queue| - 1]]
    else queue + [c]
  }

  function Sort(found: seq<Candidate>): seq<Candidate> {
    if found == [] then [] else Insert(Sort(found[..|found| - 1]), found[|found| - 1])
  }

  function Queue(entries: seq<HarEntry>): seq<Candidate> {
    Sort(Pick(Offers(entries)))
  }

  /** `candidates`. */
  method Candidates(entries: seq<HarEntry>) returns (queue: seq<Candidate>)
    ensures queue == Queue(entries)
  {
    var found := [];
    ghost var offers := Offers(entries);
    for index := 0 to |entries|
      invariant found == Pick(offers[..index])
    {
      PickAdd(offers, index);
      if HasPayload(entries[index]) {
        var (dropped, bodies) := Shell(entries[index]);
        var saving := EntrySize(entries[index]) - EntrySize(dropped);
        if saving > 0 {
          found := found + [Candidate(index, dropped, bodies, saving)];
        }
      }
    }
    assert offers[..|entries|] == offers;
    queue := Sort(found);
  }

  lemma {:induction false} InsertKeeps(queue: seq<Candidate>, c: Candidate)
    requires Ordered(queue) && (forall x :: x in queue ==> x.index < c.index)
    ensures Ordered(Insert(queue, c))
    ensures multiset(Insert(queue, c)) == multiset(queue) + multiset{c}
  {
    if queue != [] {
      var last := queue[|queue| - 1];
      var init := queue[..|queue| - 1];
      assert queue == init + [last];
      if c.saving > last.saving {
        InsertKeeps(init, c);
        var r := Insert(init, c);
        InsertedBefore(init, c, r, last);
      }
    }
  }

  lemma InsertedBefore(init: seq<Candidate>, c: Candidate, r: seq<Candidate>, last: Candidate)
    requires multiset(r) == multiset(init) + multiset{c}
    requires Before(c, last) && forall i :: 0 <= i < |init| ==> Before(init[i], last)
    ensures forall i :: 0 <= i < |r| ==> Before(r[i], last)
  {
    forall i | 0 <= i < |r| ensures Before(r[i], last) {
      assert r[i] in multiset(r);
      if r[i] != c { assert r[i] in init; }
    }
  }

  /** The candidates sorted by a stable sort, as long as they were found in log order. */
  lemma {:induction false} StableSort(found: seq<Candidate>)
    requires InOrder(found)
    ensures Ordered(Sort(found)) && multiset(Sort(found)) == multiset(found)
  {
    if found != [] {
      var init := found[..|found| - 1];
      var c := found[|found| - 1];
      assert found == init + [c];
      StableSort(init);
      forall x | x in Sort(init) ensures x.index < c.index {
        SameElements(Sort(init), init, x);
      }
      InsertKeeps(Sort(init), c);
    }
  }

  lemma QueueMembers(entries: seq<HarEntry>, c: Candidate)
    ensures c in Queue(entries) <==>
      c.index < |entries| && Saves(entries, c.index) && c == CandidateOf(entries, c.index)
  {
    var offers := Offers(entries);
    PickInOrder(offers);
    StableSort(Pick(offers));
    PickMembers(offers, c);
    SameElements(Queue(entries), Pick(offers), c);
  }

  /** Every element of the queue is the candidate of its index, and no index comes twice. */
  ghost predicate Faithful(entries: seq<HarEntry>, queue: seq<Candidate>) {
    && (forall j :: 0 <= j < |queue| ==> queue[j].index < |entries| && queue[j] == CandidateOf(entries, queue[j].index))
    && (forall i, j :: 0 <= i < j < |queue| ==> queue[i].index != queue[j].index)
  }

  /** The queue holds exactly the entries a drop makes smaller, each once, largest saving first. */
  lemma QueueIsSorted(entries: seq<HarEntry>)
    ensures Ordered(Queue(entries)) && Faithful(entries, Queue(entries))
    ensures forall i :: 0 <= i < |entries| && Saves(entries, i) ==> CandidateOf(entries, i) in Queue(entries)
  {
    PickInOrder(Offers(entries));
    StableSort(Pick(Offers(entries)));
    var queue := Queue(entries);
    forall j | 0 <= j < |queue| ensures queue[j].index < |entries| && queue[j] == CandidateOf(entries, queue[j].index) {
      QueueMembers(entries, queue[j]);
    }
    forall i | 0 <= i < |entries| && Saves(entries, i) ensures CandidateOf(entries, i) in queue {
      QueueMembers(entries, CandidateOf(entries, i));
    }
    forall i, j | 0 <= i < j < |queue| ensures queue[i].index != queue[j].index {
      assert Before(queue[i], queue[j]);
    }
  }

  // ----- fitting -----

  function Drop(h: Har, c: Candidate): Har {
    if c.index < |h.entries| then h.(entries := h.entries[c.index := c.shell], dropped := h.dropped + c.bodies) else h
  }

  /** The log with the first `k` candidates dropped. */
  function Fitted(h: Har, queue: seq<Candidate>, k: nat): Har
    requires k <= |queue|
  {
    if k == 0 then h else Drop(Fitted(h, queue, k - 1), queue[k - 1])
  }

  /** One of the first `k` candidates is entry `i`'s. */
  predicate Named(queue: seq<Candidate>, k: nat, i: nat)
    requires k <= |queue|
  {
    exists j :: 0 <= j < k && queue[j].index == i
  }

  lemma NamedNext(queue: seq<Candidate>, k: nat, i: nat)
    requires 0 < k <= |queue|
    ensures Named(queue, k, i) <==> Named(queue, k - 1, i) || queue[k - 1].index == i
  {
  }

  /** Only entries and counter change; an entry no dropped candidate names is as it was, a named one is its shell. */
  lemma {:induction false} FittedEntry(h: Har, queue: seq<Candidate>, k: nat, i: nat)
    requires k <= |queue| && i < |h.entries| && Faithful(h.entries, queue)
    ensures var f := Fitted(h, queue, k);
      && |f.entries| == |h.entries|
      && f == h.(entries := f.entries, dropped := f.dropped)
      && f.entries[i] == if Named(queue, k, i) then Shell(h.entries[i]).0 else h.entries[i]
  {
    if k > 0 {
      NamedNext(queue, k, i);
      FittedEntry(h, queue, k - 1, i);
      DropEntry(Fitted(h, queue, k - 1), queue[k - 1], i);
    }
  }

  lemma DropEntry(h: Har, c: Candidate, i: nat)
    requires i < |h.entries|
    ensures var d := Drop(h, c);
      && |d.entries| == |h.entries| && d == h.(entries := d.entries, dropped := d.dropped)
      && d.entries[i] == if i == c.index then c.shell else h.entries[i]
  {
  }

  /** Dropping one more candidate saves no more than its `saving`, since the counter may grow. */
  lemma NextSize(h: Har, queue: seq<Candidate>, k: nat)
    requires k < |queue| && Faithful(h.entries, queue)
    ensures ReplyBytes(Fitted(h, queue, k + 1)) >= ReplyBytes(Fitted(h, queue, k)) - queue[k].saving
  {
    var f := Fitted(h, queue, k);
    var c := queue[k];
    FittedEntry(h, queue, k, c.index);
    ReplyChange(f, c.index, c.shell, f.dropped + c.bodies);
    DigitsGrow(f.dropped, f.dropped + c.bodies);
  }

  predicate Fits(h: Har, limit: nat) {
    ReplyBytes(h) <= limit
  }

  /** Dropping fewer than `k` candidates does not make the reply fit. */
  predicate NoneFits(h: Har, queue: seq<Candidate>, k: nat, limit: nat)
    requires k <= |queue| + 1
  {
    forall j :: 0 <= j < k ==> !Fits(Fitted(h, queue, j), limit)
  }

  /** Dropping the first `k` candidates makes the reply fit, dropping fewer does not. */
  predicate Shortest(h: Har, k: nat, limit: nat) {
    k <= |Queue(h.entries)| && Fits(Fitted(h, Queue(h.entries), k), limit) && NoneFits(h, Queue(h.entries), k, limit)
  }

  lemma NoneFitsYet(h: Har, queue: seq<Candidate>, k: nat, limit: nat)
    requires k <= |queue| && NoneFits(h, queue, k, limit) && !Fits(Fitted(h, queue, k), limit)
    ensures NoneFits(h, queue, k + 1, limit)
  {
  }

  lemma OneMoreDropped(h: Har, queue: seq<Candidate>, k: nat, limit: nat, size: int)
    requires k < |queue| && Faithful(h.entries, queue) && NoneFits(h, queue, k, limit)
    requires limit < size <= ReplyBytes(Fitted(h, queue, k))
    ensures var f := Fitted(h, queue, k); var c := queue[k];
      && c.index < |f.entries|
      && Fitted(h, queue, k + 1) == h.(entries := f.entries[c.index := c.shell], dropped := f.dropped + c.bodies)
      && NoneFits(h, queue, k + 1, limit)
      && size - c.saving <= ReplyBytes(Fitted(h, queue, k + 1))
  {
    FittedEntry(h, queue, k, queue[k].index);
    NextSize(h, queue, k);
    NoneFitsYet(h, queue, k, limit);
  }

  /** The loop of `fitLog`: candidates are dropped in turn until the reply fits or none is left. `size`
      is never more than the reply takes, and is measured anew before it is believed. */
  method Shrink(har: Har, limit: nat, queue: seq<Candidate>) returns (fits: bool, fitted: Har, ghost taken: nat)
    requires Faithful(har.entries, queue) && !Fits(har, limit)
    ensures taken <= |queue| && fitted == Fitted(har, queue, taken) && NoneFits(har, queue, taken, limit)
    ensures if fits then Fits(fitted, limit) else taken == |queue| && !Fits(fitted, limit)
  {
    var entries := har.entries;
    var dropped: nat := har.dropped;
    var size: int := ReplyBytes(har);
    var next := 0;
    while size > limit
      invariant 0 <= next <= |queue|
      invariant har.(entries := entries, dropped := dropped) == Fitted(har, queue, next)
      invariant size <= ReplyBytes(Fitted(har, queue, next))
      invariant size <= limit ==> size == ReplyBytes(Fitted(har, queue, next))
      invariant NoneFits(har, queue, next, limit)
      decreases |queue| - next
    {
      if next == |queue| { return false, har.(entries := entries, dropped := dropped), next; }
      var c := queue[next];
      OneMoreDropped(har, queue, next, limit, size);
      entries := entries[c.index := c.shell];
      dropped := dropped + c.bodies;
      size := size - c.saving;
      next := next + 1;
      if size <= limit { size := ReplyBytes(har.(entries := entries, dropped := dropped)); }
    }
    return true, har.(entries := entries, dropped := dropped), next;
  }

  /** `fitLog`, with None for HAR_TOO_LARGE. It returns the log with the shortest run of candidates
      dropped whose reply fits, and fails exactly when not even dropping all of them is enough. */
  method FitLog(har: Har, limit: nat) returns (result: Option<Har>)
    ensures result.Some? ==>
      exists k :: 0 <= k <= |Queue(har.entries)|
        && Shortest(har, k, limit) && result.value == Fitted(har, Queue(har.entries), k)
    ensures result.None? <==> NoneFits(har, Queue(har.entries), |Queue(har.entries)| + 1, limit)
  {
    if ReplyBytes(har) <= limit {
      assert Fitted(har, Queue(har.entries), 0) == har;
      assert Shortest(har, 0, limit);
      return Some(har);
    }
    var queue := Candidates(har.entries);
    QueueIsSorted(har.entries);
    var fits, fitted, taken := Shrink(har, limit, queue);
    if !fits { return None; }
    assert Shortest(har, taken, limit);
    return Some(fitted);
  }

  // ----- the counter of dropped bodies -----

  /** The counter tells the number of flagged bodies, and no body is both flagged and filled. */
  predicate Sound(h: Har) {
    h.dropped == CountFlags(h.entries) && forall i :: 0 <= i < |h.entries| ==> Exclusive(h.entries[i])
  }

  /** Whatever `fitLog` drops, the counter keeps telling the number of flagged bodies. */
  lemma {:induction false} FittingKeepsTheCount(h: Har, queue: seq<Candidate>, k: nat)
    requires Sound(h) && k <= |queue| && Faithful(h.entries, queue)
    ensures Sound(Fitted(h, queue, k))
  {
    if k > 0 {
      FittingKeepsTheCount(h, queue, k - 1);
      var c := queue[k - 1];
      FittedEntry(h, queue, k - 1, c.index);
      DropKeepsTheCount(Fitted(h, queue, k - 1), c);
    }
  }

  lemma DropKeepsTheCount(h: Har, c: Candidate)
    requires Sound(h) && c.index < |h.entries| && Shell(h.entries[c.index]) == (c.shell, c.bodies)
    ensures Sound(Drop(h, c))
  {
    ShellFlags(h.entries[c.index]);
    CountReplaced(h.entries, c.index, c.shell);
  }

  // ----- building the log -----

  /** A captured response body as `responseContent` writes it: its text or its base64 form. */
  datatype BodyText = BodyText(text: Text, base64: bool, complete: bool)

  /** What `postData` reads of a raw part beside its bytes. */
  datatype Part = Part(file: bool, truncated: bool, originalSize: Option<nat>)

  /** What `finish` makes `postData` of: a body dropped for want of budget, or a prefix that becomes
      an error, params or a text. */
  datatype RequestBody =
    | Dropped
    | Errored(error: Text)
    | FormData(params: seq<Json>, comment: Option<Text>, cut: bool)
    | Raw(parts: seq<Part>, text: Text, base64: bool, cut: bool)

  /** The parts of a `HopRecord` the bodies of its entry depend on; the other members are given as they print. */
  datatype HopRecord = HopRecord(
    head: seq<Member>, request: seq<Member>, response: seq<Member>, responseTail: seq<Member>, tail: seq<Member>,
    requestType: Text, responseType: Text, status: Option<nat>, redirected: bool, isHead: bool, emptyLength: bool,
    body: Option<BodyText>, size: nat, truncated: bool, bodyError: Option<Text>, bodyDropped: bool,
    requestBody: Option<RequestBody>)

  predicate Bodiless(isHead: bool, status: nat) {
    isHead || 100 <= status < 200 || status == 204 || status == 304
  }

  /** `droppedBody`: a budget drop counts only for a response that came and could carry a body. */
  predicate DroppedBody(hop: HopRecord) {
    hop.bodyDropped && hop.status.Some? && !hop.redirected && !Bodiless(hop.isHead, hop.status.value)
      && !hop.emptyLength
  }

  function Optional(present: bool, key: Text, value: Json): seq<Member> {
    if present then [Member(key, value)] else []
  }

  /** `responseContent`, part by part. */
  function ContentParts(hop: HopRecord): (parts: seq<seq<Member>>)
    ensures |parts| == 7
  {
    [[Member(Key("size"), Number(hop.size)), Member(Key("mimeType"), Str(hop.responseType))],
     Optional(hop.body.Some?, TEXT, Str(if hop.body.Some? then hop.body.value.text else [])),
     Optional(hop.body.Some? && hop.body.value.base64, ENCODING, Str(Key("base64"))),
     Optional(hop.body.Some? && !hop.body.value.complete, Key("_complete"), Literal([0x66, 0x61, 0x6C, 0x73, 0x65])),
     Optional(hop.truncated, Key("_truncated"), TRUE),
     Optional(DroppedBody(hop), BODY_DROPPED, TRUE),
     Optional(hop.bodyError.Some?, Key("_bodyError"), Str(if hop.bodyError.Some? then hop.bodyError.value else []))]
  }

  function Content(hop: HopRecord): seq<Member> {
    Concat(ContentParts(hop))
  }

  function FileParts(parts: seq<Part>): nat {
    if parts == [] then 0 else FileParts(parts[..|parts| - 1]) + if parts[|parts| - 1].file then 1 else 0
  }

  const FILE_PARTS := Key("_fileParts")
  const BY_BROWSER := Key("_truncatedByBrowser")
  const ORIGINAL_SIZE := Key("_originalSize")

  /** The members `rawPostData` sets in its loop over the parts. */
  function PartFlags(parts: seq<Part>): seq<Member> {
    if parts == [] then []
    else
      var part := parts[|parts| - 1];
      var before := PartFlags(parts[..|parts| - 1]);
      var counted := if part.file then Put(before, FILE_PARTS, Number(FileParts(parts))) else before;
      if !part.truncated then counted
      else
        var marked := Put(counted, BY_BROWSER, TRUE);
        if part.originalSize.Some? && Get(marked, ORIGINAL_SIZE).None?
        then Put(marked, ORIGINAL_SIZE, Number(part.originalSize.value)) else marked
  }

  /** `finish` and `postData`, part by part. */
  function PostParts(mimeType: Text, b: RequestBody): (parts: seq<seq<Member>>) {
    [[Member(Key("mimeType"), Str(mimeType))]] +
    match b
    case Dropped => [[Member(BODY_DROPPED, TRUE)]]
    case Errored(error) => [[Member(TEXT, Str([]))], [Member(Key("_error"), Str(error))]]
    case FormData(params, comment, cut) =>
      [[Member(PARAMS, Arr(params))],
       [Member(Key("_formData"), TRUE)],
       Optional(comment.Some?, Key("comment"), Str(if comment.Some? then comment.value else [])),
       Optional(cut, Key("_truncated"), TRUE)]
    case Raw(parts, text, base64, cut) =>
      [PartFlags(parts),
       [Member(TEXT, Str(text))],
       Optional(base64, Key("_encoding"), Str(Key("base64"))),
       Optional(cut, Key("_truncated"), TRUE)]
  }

  function PostData(hop: HopRecord): Option<seq<Member>> {
    if hop.requestBody.None? then None else Some(Concat(PostParts(hop.requestType, hop.requestBody.value)))
  }

  function Entry(hop: HopRecord): HarEntry {
    HarEntry(hop.head, hop.request, PostData(hop), hop.response, Content(hop), hop.responseTail, hop.tail)
  }

  /** `buildLog` over the hops in start order. */
  function BuildLog(head: seq<Member>, hops: seq<HopRecord>, before: seq<Member>, after: seq<Member>): Har {
    var entries := seq(|hops|, i requires 0 <= i < |hops| => Entry(hops[i]));
    Har(head, entries, before, CountFlags(entries), after)
  }

  lemma {:induction false} GetAppend(a: seq<Member>, b: seq<Member>, key: Text)
    ensures Get(a + b, key) == if Get(a, key).Some? then Get(a, key) else Get(b, key)
  {
    if a == [] {
      assert a + b == b;
    } else {
      assert (a + b)[1..] == a[1..] + b;
      GetAppend(a[1..], b, key);
    }
  }

  /** What the recorder promises of a hop it hands over, see `HarExport.RecordsAreSound`. */
  predicate Recorded(hop: HopRecord) {
    hop.bodyDropped ==> hop.body.None?
  }

  lemma KeysDiffer()
    ensures TEXT != ENCODING && TEXT != PARAMS && TEXT != BODY_DROPPED && PARAMS != BODY_DROPPED
      && ENCODING != BODY_DROPPED
    ensures Key("size") != TEXT && Key("size") != BODY_DROPPED
    ensures Key("mimeType") != TEXT && Key("mimeType") != BODY_DROPPED && Key("mimeType") != PARAMS
    ensures Key("_complete") != TEXT && Key("_complete") != BODY_DROPPED
    ensures Key("_truncated") != TEXT && Key("_truncated") != BODY_DROPPED
    ensures Key("_bodyError") != TEXT && Key("_bodyError") != BODY_DROPPED
    ensures BODY_DROPPED !in {Key("_error"), Key("_formData"), Key("comment"), Key("_encoding"), FILE_PARTS,
      BY_BROWSER, ORIGINAL_SIZE}
  {
    assert Key("size")[0] == 0x73 && TEXT[0] == 0x74;
    assert |TEXT| == 4 && |ENCODING| == 8 && |BODY_DROPPED| == 12 && |PARAMS| == 6;
    assert |Key("mimeType")| == 8 && |Key("size")| == 4 && |Key("_complete")| == 9;
    assert |Key("_truncated")| == 10 && |Key("_bodyError")| == 10 && |Key("_formData")| == 9 && |Key("_encoding")| == 9;
    assert |Key("_error")| == 6 && |Key("comment")| == 7 && |FILE_PARTS| == 10 && |BY_BROWSER| == 19
      && |ORIGINAL_SIZE| == 13;
  }

  /** A key that one part alone may hold. */
  lemma {:induction false} OnlyPart(parts: seq<seq<Member>>, k: nat, key: Text)
    requires forall i :: 0 <= i < |parts| && i != k ==> Get(parts[i], key) == None
    ensures Get(Concat(parts), key) == if k < |parts| then Get(parts[k], key) else None
  {
    if parts != [] {
      var init := parts[..|parts| - 1];
      OnlyPart(init, k, key);
      GetAppend(Concat(init), parts[|parts| - 1], key);
    }
  }

  lemma GetHead(hop: HopRecord, key: Text)
    requires key == TEXT || key == BODY_DROPPED
    ensures Get(ContentParts(hop)[0], key) == None
  {
    KeysDiffer();
    var a := ContentParts(hop)[0];
    assert a[1..] == [Member(Key("mimeType"), Str(hop.responseType))];
    assert Get(a[1..], key) == None;
  }

  /** Where the text and the flag of a content object come from. */
  lemma ContentKey(hop: HopRecord, key: Text)
    requires key == TEXT || key == BODY_DROPPED
    ensures Get(Content(hop), key) == Get(ContentParts(hop)[if key == TEXT then 1 else 5], key)
  {
    KeysDiffer();
    GetHead(hop, key);
    OnlyPart(ContentParts(hop), if key == TEXT then 1 else 5, key);
  }

  lemma ContentKeys(hop: HopRecord)
    ensures Flagged(Content(hop)) <==> DroppedBody(hop)
    ensures FilledContent(Content(hop)) ==> hop.body.Some?
  {
    KeysDiffer();
    ContentKey(hop, TEXT);
    ContentKey(hop, BODY_DROPPED);
  }

  lemma {:induction false} PartFlagsKeys(parts: seq<Part>, key: Text)
    requires key !in {FILE_PARTS, BY_BROWSER, ORIGINAL_SIZE}
    ensures Get(PartFlags(parts), key) == None
  {
    if parts != [] {
      var part := parts[|parts| - 1];
      var before := PartFlags(parts[..|parts| - 1]);
      PartFlagsKeys(parts[..|parts| - 1], key);
      GetPut(before, FILE_PARTS, Number(FileParts(parts)), key);
      var counted := if part.file then Put(before, FILE_PARTS, Number(FileParts(parts))) else before;
      GetPut(counted, BY_BROWSER, TRUE, key);
      if part.originalSize.Some? {
        GetPut(Put(counted, BY_BROWSER, TRUE), ORIGINAL_SIZE, Number(part.originalSize.value), key);
      }
    }
  }

  /** Only a body dropped for want of budget carries the flag. */
  lemma PostFlag(mimeType: Text, b: RequestBody)
    ensures Flagged(Concat(PostParts(mimeType, b))) <==> b.Dropped?
  {
    KeysDiffer();
    var parts := PostParts(mimeType, b);
    if b.Raw? { PartFlagsKeys(b.parts, BODY_DROPPED); }
    OnlyPart(parts, if b.Dropped? then 1 else |parts|, BODY_DROPPED);
  }

  /** Such a body has neither text nor params. */
  lemma DroppedPost(mimeType: Text, key: Text)
    requires key == TEXT || key == PARAMS
    ensures Get(Concat(PostParts(mimeType, Dropped)), key) == None
  {
    KeysDiffer();
    OnlyPart(PostParts(mimeType, Dropped), 2, key);
  }

  lemma PostKeys(hop: HopRecord)
    requires PostData(hop).Some?
    ensures Flagged(PostData(hop).value) <==> hop.requestBody.value.Dropped?
    ensures FilledPost(PostData(hop)) ==> !hop.requestBody.value.Dropped?
  {
    PostFlag(hop.requestType, hop.requestBody.value);
    DroppedPost(hop.requestType, TEXT);
    DroppedPost(hop.requestType, PARAMS);
  }

  /** A log that `buildLog` makes of recorded hops counts its dropped bodies right, and flags exactly
      the responses that a drop took the body of and the requests stored for none of theirs. */
  lemma BuildLogIsSound(head: seq<Member>, hops: seq<HopRecord>, before: seq<Member>, after: seq<Member>)
    requires forall i :: 0 <= i < |hops| ==> Recorded(hops[i])
    ensures var har := BuildLog(head, hops, before, after);
      Sound(har) && |har.entries| == |hops| && forall i :: 0 <= i < |hops| ==> FlagsOf(hops[i], har.entries[i])
  {
    var har := BuildLog(head, hops, before, after);
    forall i | 0 <= i < |hops| ensures Exclusive(har.entries[i]) && FlagsOf(hops[i], har.entries[i]) {
      ContentKeys(hops[i]);
      if PostData(hops[i]).Some? {
        PostKeys(hops[i]);
      }
    }
  }

  predicate FlagsOf(hop: HopRecord, e: HarEntry) {
    && (Flagged(e.content) <==> DroppedBody(hop))
    && (e.post.Some? <==> hop.requestBody.Some?)
    && (e.post.Some? ==> (Flagged(e.post.value) <==> hop.requestBody.value.Dropped?))
  }
}

/**
 importCookies (extension/src/handlers/cookies.ts): a batch of cookies written one by one, then
 judged by what re-queries find. What Firefox answers is given: the time and the outcome of each
 set, the cookies it keeps, and the site it keeps of each topLevelSite.
 */
module CookieImport {
  import opened Base
  import opened Utf8
  import opened CookieKeys

  datatype Input = Malformed(error: Text) | Entry(cookie: Cookie)

  datatype Answer = Answer(now: int, throws: Option<Text>)

  datatype Reason = BadEntry(error: Text) | Expired | SetFailed(error: Text) | NotStored | Overwritten

  /** `index` stands for the name and domain that the source reports. */
  datatype Failure = Failure(index: nat, reason: Reason)

  /** Whether a date in seconds is at or before a time in milliseconds. */
  predicate IsPast(expirationDate: Option<int>, now: int) {
    expirationDate.Some? && expirationDate.value * 1000 <= now
  }

  datatype Batch = Batch(
    inputs: seq<Input>, answers: seq<Answer>, kept: map<Identity, Text>,
    sites: Text -> Option<Text>, hosts: Text -> Text)
  {
    ghost predicate Wf() {
      && |answers| == |inputs|
      && forall t :: sites(t).Some? ==> sites(t).value != []
    }

    /** Why an entry is not even sent, or not taken. */
    function Early(i: nat): Option<Reason>
      requires i < |inputs| == |answers|
    {
      match inputs[i]
      case Malformed(error) => Some(BadEntry(error))
      case Entry(c) =>
        if !c.session && IsPast(c.expirationDate, answers[i].now) then Some(Expired)
        else if answers[i].throws.Some? then Some(SetFailed(answers[i].throws.value))
        else None
    }

    predicate Sent(i: nat)
      requires |inputs| == |answers|
    {
      i < |inputs| && Early(i).None?
    }

    function Top(i: nat): Text
      requires |inputs| == |answers| && Sent(i)
    {
      SiteOf(inputs[i].cookie.partitionKey)
    }

    /** The stored cookie an entry stands for, unless Firefox keeps nothing under the site it asked for. */
    function Key(i: nat): Option<Identity>
      requires i < |inputs| == |answers|
    {
      if !Sent(i) then None
      else if Top(i) == [] then Some(Requested(SetDetails(inputs[i].cookie), hosts, None))
      else if sites(Top(i)).None? then None
      else Some(Requested(SetDetails(inputs[i].cookie), hosts, sites(Top(i))))
    }

    function Keys(): (keys: seq<Option<Identity>>)
      requires |inputs| == |answers|
      ensures |keys| == |inputs|
    {
      seq(|inputs|, i requires 0 <= i < |inputs| => Key(i))
    }

    /** What becomes of an entry: imported, or the reason why not. */
    function Fate(i: nat): Option<Reason>
      requires i < |inputs| == |answers|
    {
      if Early(i).Some? then Early(i)
      else if Key(i).None? then Some(NotStored)
      else if LaterTwin(Keys(), i) then Some(Overwritten)
      else if Key(i).value in kept && kept[Key(i).value] == inputs[i].cookie.value then None
      else Some(NotStored)
    }

    function Fates(): (fates: seq<Option<Reason>>)
      requires |inputs| == |answers|
      ensures |fates| == |inputs|
    {
      seq(|inputs|, i requires 0 <= i < |inputs| => Fate(i))
    }
  }

  /** A later entry for the same stored cookie. */
  predicate LaterTwin(keys: seq<Option<Identity>>, i: nat)
    requires i < |keys|
  {
    exists j :: i < j < |keys| && keys[j].Some? && keys[j] == keys[i]
  }

  // ----- failures -----

  function Indices(failed: seq<Failure>): set<nat> {
    set i | 0 <= i < |failed| :: failed[i].index
  }

  /** Each failure is of an entry of its own and gives the reason of that entry's fate. */
  ghost predicate Justified(fates: seq<Option<Reason>>, failed: seq<Failure>) {
    && |Indices(failed)| == |failed|
    && forall i :: 0 <= i < |failed| ==> failed[i].index < |fates| && fates[failed[i].index] == Some(failed[i].reason)
  }

  lemma JustifiedAdd(fates: seq<Option<Reason>>, failed: seq<Failure>, i: nat, reason: Reason)
    requires Justified(fates, failed) && i < |fates| && i !in Indices(failed) && fates[i] == Some(reason)
    ensures Justified(fates, failed + [Failure(i, reason)])
    ensures Indices(failed + [Failure(i, reason)]) == Indices(failed) + {i}
  {
    var more := failed + [Failure(i, reason)];
    forall x | x in Indices(failed) + {i} ensures x in Indices(more) {
      if x == i { assert more[|failed|].index == x; }
      else { var k :| 0 <= k < |failed| && failed[k].index == x; assert more[k].index == x; }
    }
    assert Indices(more) == Indices(failed) + {i};
  }

  // ----- the first loop -----

  /** After the first `n` entries: those sent, in order, and the others failed. */
  ghost predicate SplitAt(fates: seq<Option<Reason>>, early: seq<Option<Reason>>, failed: seq<Failure>, sent: seq<nat>,
      n: nat)
    requires n <= |early|
  {
    && Justified(fates, failed) && |failed| + |sent| == n
    && (forall k :: 0 <= k < |sent| ==> sent[k] < n && early[sent[k]].None? && sent[k] !in Indices(failed))
    && (forall j, k :: 0 <= j < k < |sent| ==> sent[j] < sent[k])
    && (forall i :: i in Indices(failed) ==> i < n && early[i].Some?)
    && (forall i :: 0 <= i < n ==> i in Indices(failed) || i in sent)
  }

  lemma SplitSent(fates: seq<Option<Reason>>, early: seq<Option<Reason>>, failed: seq<Failure>, sent: seq<nat>, i: nat)
    requires i < |early| && SplitAt(fates, early, failed, sent, i) && early[i].None?
    ensures SplitAt(fates, early, failed, sent + [i], i + 1)
  {}

  lemma SplitFailed(fates: seq<Option<Reason>>, early: seq<Option<Reason>>, failed: seq<Failure>, sent: seq<nat>,
      i: nat, reason: Reason)
    requires i < |early| == |fates| && SplitAt(fates, early, failed, sent, i) && fates[i] == early[i] == Some(reason)
    ensures SplitAt(fates, early, failed + [Failure(i, reason)], sent, i + 1)
  {
    JustifiedAdd(fates, failed, i, reason);
  }

  function Earlies(b: Batch): (early: seq<Option<Reason>>)
    requires |b.inputs| == |b.answers|
    ensures |early| == |b.inputs|
  {
    seq(|b.inputs|, i requires 0 <= i < |b.inputs| => b.Early(i))
  }

  lemma EarlyIsFate(b: Batch, i: nat)
    requires b.Wf() && i < |b.inputs| && b.Early(i).Some?
    ensures b.Fates()[i] == Earlies(b)[i] == b.Early(i)
  {}

  method SendOne(b: Batch, i: nat) returns (reason: Option<Reason>)
    requires b.Wf() && i < |b.inputs|
    ensures reason == b.Early(i)
  {
    if b.inputs[i].Malformed? { return Some(BadEntry(b.inputs[i].error)); }
    var c := b.inputs[i].cookie;
    if !c.session && IsPast(c.expirationDate, b.answers[i].now) { return Some(Expired); }
    if b.answers[i].throws.Some? { return Some(SetFailed(b.answers[i].throws.value)); }
    return None;
  }

  /** Parse, look at the date, set. */
  method Send(b: Batch) returns (failed: seq<Failure>, sent: seq<nat>)
    requires b.Wf()
    ensures SplitAt(b.Fates(), Earlies(b), failed, sent, |b.inputs|)
  {
    failed, sent := [], [];
    ghost var fates, early := b.Fates(), Earlies(b);
    for i := 0 to |b.inputs|
      invariant SplitAt(fates, early, failed, sent, i)
    {
      var reason := SendOne(b, i);
      if reason.Some? {
        EarlyIsFate(b, i);
        SplitFailed(fates, early, failed, sent, i, reason.value);
        failed := failed + [Failure(i, reason.value)];
      } else {
        SplitSent(fates, early, failed, sent, i);
        sent := sent + [i];
      }
    }
  }

  /** One re-query for each site asked for. */
  method PartitionSites(b: Batch, sent: seq<nat>) returns (sites: map<Text, Option<Text>>)
    requires b.Wf() && forall k :: 0 <= k < |sent| ==> b.Sent(sent[k])
    ensures forall k :: 0 <= k < |sent| && b.Top(sent[k]) != [] ==> b.Top(sent[k]) in sites
    ensures forall top :: top in sites ==> sites[top] == b.sites(top)
  {
    sites := map[];
    for k := 0 to |sent|
      invariant forall j :: 0 <= j < k && b.Top(sent[j]) != [] ==> b.Top(sent[j]) in sites
      invariant forall top :: top in sites ==> sites[top] == b.sites(top)
    {
      var top := b.Top(sent[k]);
      if top != [] && top !in sites { sites := sites[top := b.sites(top)]; }
    }
  }

  // ----- the last entry of each stored cookie -----

  /** `last` and its keys in the order of their first insertion, after the first `m` sent entries. */
  ghost predicate LastAre(keys: seq<Option<Identity>>, sent: seq<nat>, m: nat, last: map<Identity, nat>,
      order: seq<Identity>)
    requires m <= |sent| && forall k :: 0 <= k < |sent| ==> sent[k] < |keys|
  {
    && (forall key :: key in last ==> last[key] < |keys| && keys[last[key]] == Some(key) && last[key] in sent[..m])
    && (forall k :: 0 <= k < m && keys[sent[k]].Some? ==>
          keys[sent[k]].value in last && sent[k] <= last[keys[sent[k]].value])
    && (forall key :: key in order <==> key in last)
    && (forall j, k :: 0 <= j < k < |order| ==> order[j] != order[k])
  }

  predicate Increasing(sent: seq<nat>) {
    forall j, k :: 0 <= j < k < |sent| ==> sent[j] < sent[k]
  }

  lemma LastAdd(keys: seq<Option<Identity>>, sent: seq<nat>, m: nat, last: map<Identity, nat>, order: seq<Identity>)
    requires (forall k :: 0 <= k < |sent| ==> sent[k] < |keys|) && Increasing(sent)
    requires m < |sent| && LastAre(keys, sent, m, last, order)
    ensures keys[sent[m]].Some? ==> var key := keys[sent[m]].value;
      LastAre(keys, sent, m + 1, last[key := sent[m]], if key in last then order else order + [key])
    ensures keys[sent[m]].None? ==> LastAre(keys, sent, m + 1, last, order)
  {
    assert sent[..m + 1] == sent[..m] + [sent[m]];
  }

  /** What the keys say of the fates of the entries that were sent. */
  ghost predicate Follow(fates: seq<Option<Reason>>, keys: seq<Option<Identity>>, sent: seq<nat>) {
    && |fates| == |keys| && Increasing(sent)
    && (forall k :: 0 <= k < |sent| ==> sent[k] < |keys|)
    && (forall k :: 0 <= k < |sent| && keys[sent[k]].None? ==> fates[sent[k]] == Some(NotStored))
    && (forall k :: 0 <= k < |sent| && keys[sent[k]].Some? && LaterTwin(keys, sent[k]) ==>
          fates[sent[k]] == Some(Overwritten))
  }

  /** After the first `m` sent entries: every entry has failed, is still to be placed, or is the last
      of its key, and one of the three only. */
  ghost predicate Placing(fates: seq<Option<Reason>>, keys: seq<Option<Identity>>, sent: seq<nat>, m: nat,
      failed: seq<Failure>, last: map<Identity, nat>, order: seq<Identity>)
    requires Follow(fates, keys, sent) && m <= |sent|
  {
    && Justified(fates, failed) && LastAre(keys, sent, m, last, order)
    && |failed| + |order| + |sent| - m == |keys|
    && Covers(Indices(failed), keys, sent, m, last)
  }

  ghost predicate Covers(failed: set<nat>, keys: seq<Option<Identity>>, sent: seq<nat>, m: nat,
      last: map<Identity, nat>)
    requires m <= |sent|
  {
    && (forall i :: 0 <= i < |keys| ==>
          i in failed || i in sent[m..] || (keys[i].Some? && keys[i].value in last && last[keys[i].value] == i))
    && (forall k :: m <= k < |sent| ==> sent[k] !in failed)
    && (forall key :: key in last ==> last[key] !in failed)
  }

  lemma CoversLast(failed: set<nat>, keys: seq<Option<Identity>>, sent: seq<nat>, m: nat, last: map<Identity, nat>,
      key: Identity)
    requires m < |sent| && sent[m] < |keys| && keys[sent[m]] == Some(key) && Covers(failed, keys, sent, m, last)
    requires key in last ==> forall k :: m <= k < |sent| ==> sent[k] != last[key]
    requires key in last ==> forall other :: other in last && other != key ==> last[other] != last[key]
    ensures Covers(failed + if key in last then {last[key]} else {}, keys, sent, m + 1, last[key := sent[m]])
  {
    assert sent[m..] == [sent[m]] + sent[m + 1..];
  }

  lemma PlaceNone(fates: seq<Option<Reason>>, keys: seq<Option<Identity>>, sent: seq<nat>, m: nat,
      failed: seq<Failure>, last: map<Identity, nat>, order: seq<Identity>)
    requires Follow(fates, keys, sent) && m < |sent| && Placing(fates, keys, sent, m, failed, last, order)
    requires keys[sent[m]].None?
    ensures Placing(fates, keys, sent, m + 1, failed + [Failure(sent[m], NotStored)], last, order)
  {
    LastAdd(keys, sent, m, last, order);
    JustifiedAdd(fates, failed, sent[m], NotStored);
    assert sent[m..] == [sent[m]] + sent[m + 1..];
  }

  /** The entry that gives way to a later one. */
  lemma TwinGivesWay(fates: seq<Option<Reason>>, keys: seq<Option<Identity>>, sent: seq<nat>, m: nat,
      failed: seq<Failure>, last: map<Identity, nat>, order: seq<Identity>)
    requires Follow(fates, keys, sent) && m < |sent| && Placing(fates, keys, sent, m, failed, last, order)
    requires keys[sent[m]].Some? && keys[sent[m]].value in last
    ensures var earlier := last[keys[sent[m]].value];
      && earlier < |fates| && fates[earlier] == Some(Overwritten)
      && (forall k :: m <= k < |sent| ==> sent[k] != earlier)
      && (forall other :: other in last && other != keys[sent[m]].value ==> last[other] != earlier)
  {
    var key := keys[sent[m]].value;
    var earlier := last[key];
    var k :| 0 <= k < m && sent[k] == earlier;
    assert earlier < sent[m] && LaterTwin(keys, earlier);
    forall other | other in last && other != key ensures last[other] != earlier {
      assert keys[last[other]] == Some(other);
    }
  }

  lemma PlaceTwin(fates: seq<Option<Reason>>, keys: seq<Option<Identity>>, sent: seq<nat>, m: nat,
      failed: seq<Failure>, last: map<Identity, nat>, order: seq<Identity>)
    requires Follow(fates, keys, sent) && m < |sent| && Placing(fates, keys, sent, m, failed, last, order)
    requires keys[sent[m]].Some? && keys[sent[m]].value in last
    ensures var key := keys[sent[m]].value;
      Placing(fates, keys, sent, m + 1, failed + [Failure(last[key], Overwritten)], last[key := sent[m]], order)
  {
    var key := keys[sent[m]].value;
    TwinGivesWay(fates, keys, sent, m, failed, last, order);
    LastAdd(keys, sent, m, last, order);
    JustifiedAdd(fates, failed, last[key], Overwritten);
    CoversLast(Indices(failed), keys, sent, m, last, key);
  }

  lemma PlaceNew(fates: seq<Option<Reason>>, keys: seq<Option<Identity>>, sent: seq<nat>, m: nat,
      failed: seq<Failure>, last: map<Identity, nat>, order: seq<Identity>)
    requires Follow(fates, keys, sent) && m < |sent| && Placing(fates, keys, sent, m, failed, last, order)
    requires keys[sent[m]].Some? && keys[sent[m]].value !in last
    ensures var key := keys[sent[m]].value;
      Placing(fates, keys, sent, m + 1, failed, last[key := sent[m]], order + [key])
  {
    LastAdd(keys, sent, m, last, order);
    CoversLast(Indices(failed), keys, sent, m, last, keys[sent[m]].value);
    assert Indices(failed) + {} == Indices(failed);
  }

  lemma SplitFollows(b: Batch, failed: seq<Failure>, sent: seq<nat>)
    requires b.Wf() && SplitAt(b.Fates(), Earlies(b), failed, sent, |b.inputs|)
    ensures Follow(b.Fates(), b.Keys(), sent)
    ensures forall k :: 0 <= k < |sent| ==> b.Sent(sent[k])
    ensures Placing(b.Fates(), b.Keys(), sent, 0, failed, map[], [])
  {
    forall k | 0 <= k < |sent| ensures b.Sent(sent[k]) { assert Earlies(b)[sent[k]] == b.Early(sent[k]); }
    forall k | 0 <= k < |sent| && b.Keys()[sent[k]].None? ensures b.Fates()[sent[k]] == Some(NotStored) {
      assert b.Fates()[sent[k]] == b.Fate(sent[k]);
    }
    forall k | 0 <= k < |sent| && b.Keys()[sent[k]].Some? && LaterTwin(b.Keys(), sent[k])
      ensures b.Fates()[sent[k]] == Some(Overwritten)
    {
      assert b.Fates()[sent[k]] == b.Fate(sent[k]);
    }
  }

  /** The loop over what was sent; an empty answer for a site fails the entry, whatever the store has
      under the topLevelSite as given. */
  method Place(b: Batch, sent: seq<nat>, sites: map<Text, Option<Text>>, failed0: seq<Failure>)
    returns (failed: seq<Failure>, last: map<Identity, nat>, order: seq<Identity>)
    requires b.Wf() && Follow(b.Fates(), b.Keys(), sent)
    requires Placing(b.Fates(), b.Keys(), sent, 0, failed0, map[], [])
    requires forall k :: 0 <= k < |sent| ==> b.Sent(sent[k]) && (b.Top(sent[k]) != [] ==> b.Top(sent[k]) in sites)
    requires forall top :: top in sites ==> sites[top] == b.sites(top)
    ensures Placing(b.Fates(), b.Keys(), sent, |sent|, failed, last, order)
  {
    failed, last, order := failed0, map[], [];
    ghost var fates, keys := b.Fates(), b.Keys();
    for m := 0 to |sent|
      invariant Placing(fates, keys, sent, m, failed, last, order)
    {
      var key := KeyOfSent(b, sent[m], sites);
      if key.None? {
        PlaceNone(fates, keys, sent, m, failed, last, order);
        failed := failed + [Failure(sent[m], NotStored)];
      } else if key.value in last {
        PlaceTwin(fates, keys, sent, m, failed, last, order);
        failed := failed + [Failure(last[key.value], Overwritten)];
        last := last[key.value := sent[m]];
      } else {
        PlaceNew(fates, keys, sent, m, failed, last, order);
        last, order := last[key.value := sent[m]], order + [key.value];
      }
    }
  }

  method KeyOfSent(b: Batch, i: nat, sites: map<Text, Option<Text>>) returns (key: Option<Identity>)
    requires b.Wf() && b.Sent(i) && (b.Top(i) != [] ==> b.Top(i) in sites && sites[b.Top(i)] == b.sites(b.Top(i)))
    ensures key == b.Keys()[i]
  {
    var top := b.Top(i);
    var site := if top == [] then None else sites[top];
    if top != [] && site.None? { return None; }
    key := Some(Requested(SetDetails(b.inputs[i].cookie), b.hosts, site));
  }

  // ----- the count -----

  /** After the first `p` keys: every entry has failed, is imported, or its key is still to come. */
  ghost predicate Counting(fates: seq<Option<Reason>>, keys: seq<Option<Identity>>, failed: seq<Failure>, imported: nat,
      last: map<Identity, nat>, order: seq<Identity>, p: nat)
    requires |fates| == |keys| && p <= |order|
  {
    && Justified(fates, failed)
    && imported + |failed| + |order| - p == |keys|
    && (forall i :: 0 <= i < |keys| ==> i in Indices(failed) || fates[i].None? || ToCome(keys[i], i, last, order[p..]))
    && (forall q :: p <= q < |order| ==> order[q] in last && last[order[q]] !in Indices(failed))
  }

  predicate ToCome(key: Option<Identity>, i: nat, last: map<Identity, nat>, order: seq<Identity>) {
    key.Some? && key.value in order && key.value in last && last[key.value] == i
  }

  /** What the keys say of the fate of the last entry of a key. */
  ghost predicate LastFollow(b: Batch, last: map<Identity, nat>)
    requires b.Wf()
  {
    forall key :: key in last ==>
      last[key] < |b.inputs| && b.inputs[last[key]].Entry?
      && b.Fates()[last[key]] == if key in b.kept && b.kept[key] == b.inputs[last[key]].cookie.value then None
            else Some(NotStored)
  }

  lemma PlacedThenCounted(b: Batch, sent: seq<nat>, failed: seq<Failure>, last: map<Identity, nat>,
      order: seq<Identity>)
    requires b.Wf() && Follow(b.Fates(), b.Keys(), sent)
      && Placing(b.Fates(), b.Keys(), sent, |sent|, failed, last, order)
    requires forall k :: 0 <= k < |sent| ==> b.Sent(sent[k])
    requires forall i :: 0 <= i < |b.inputs| && b.Sent(i) ==> i in sent
    ensures Counting(b.Fates(), b.Keys(), failed, 0, last, order, 0) && LastFollow(b, last)
  {
    assert order[0..] == order;
    var keys := b.Keys();
    forall key | key in last
      ensures last[key] < |b.inputs| && b.inputs[last[key]].Entry?
      ensures b.Fates()[last[key]] == if key in b.kept && b.kept[key] == b.inputs[last[key]].cookie.value then None
        else Some(NotStored)
    {
      var i := last[key];
      assert keys[i] == b.Key(i) == Some(key);
      NoLaterTwin(b, sent, last, order, key);
      assert b.Fates()[i] == b.Fate(i);
    }
  }

  lemma NoLaterTwin(b: Batch, sent: seq<nat>, last: map<Identity, nat>, order: seq<Identity>, key: Identity)
    requires b.Wf() && Follow(b.Fates(), b.Keys(), sent) && LastAre(b.Keys(), sent, |sent|, last, order) && key in last
    requires forall i :: 0 <= i < |b.inputs| && b.Sent(i) ==> i in sent
    ensures !LaterTwin(b.Keys(), last[key])
  {
    var keys := b.Keys();
    forall j | last[key] < j < |keys| && keys[j].Some? ensures keys[j] != keys[last[key]] {
      assert keys[j] == b.Key(j);
      var k :| 0 <= k < |sent| && sent[k] == j;
      assert j <= last[keys[j].value];
    }
  }

  lemma CountOne(fates: seq<Option<Reason>>, keys: seq<Option<Identity>>, failed: seq<Failure>, imported: nat,
      last: map<Identity, nat>, order: seq<Identity>, p: nat)
    requires |fates| == |keys| && p < |order| && Counting(fates, keys, failed, imported, last, order, p)
    requires forall j, k :: 0 <= j < k < |order| ==> order[j] != order[k]
    requires forall key :: key in last ==> last[key] < |keys| && keys[last[key]] == Some(key)
    requires fates[last[order[p]]] in {None, Some(NotStored)}
    ensures var i := last[order[p]];
      if fates[i].None? then Counting(fates, keys, failed, imported + 1, last, order, p + 1)
      else Counting(fates, keys, failed + [Failure(i, NotStored)], imported, last, order, p + 1)
  {
    var i := last[order[p]];
    assert order[p..] == [order[p]] + order[p + 1..];
    forall q | p < q < |order| ensures last[order[q]] != i { assert keys[last[order[q]]] == Some(order[q]); }
    if fates[i].Some? { JustifiedAdd(fates, failed, i, NotStored); }
  }

  /** Everything is accounted for, once: an entry is imported or it is in `failed` with its own
      reason. Imported are exactly the entries that Firefox took, that no later entry for the same
      stored cookie followed, and whose value the store has. */
  method ImportCookies(b: Batch) returns (imported: nat, failed: seq<Failure>)
    requires b.Wf()
    ensures imported + |failed| == |b.inputs|
    ensures Justified(b.Fates(), failed)
    ensures forall i :: 0 <= i < |b.inputs| ==> (i in Indices(failed) <==> b.Fate(i).Some?)
  {
    var failed0, sent := Send(b);
    SplitFollows(b, failed0, sent);
    var sites := PartitionSites(b, sent);
    var last, order;
    failed, last, order := Place(b, sent, sites, failed0);
    AllSent(b, failed0, sent);
    PlacedThenCounted(b, sent, failed, last, order);
    imported := 0;
    for p := 0 to |order|
      invariant Counting(b.Fates(), b.Keys(), failed, imported, last, order, p)
    {
      var i := last[order[p]];
      CountOne(b.Fates(), b.Keys(), failed, imported, last, order, p);
      if order[p] in b.kept && b.kept[order[p]] == b.inputs[i].cookie.value {
        imported := imported + 1;
      } else {
        failed := failed + [Failure(i, NotStored)];
      }
    }
    FailedAreAll(b, failed);
  }

  lemma AllSent(b: Batch, failed: seq<Failure>, sent: seq<nat>)
    requires b.Wf() && SplitAt(b.Fates(), Earlies(b), failed, sent, |b.inputs|)
    ensures forall i :: 0 <= i < |b.inputs| && b.Sent(i) ==> i in sent
  {
    forall i | 0 <= i < |b.inputs| && b.Sent(i) ensures Earlies(b)[i].None? {}
  }

  lemma FailedAreAll(b: Batch, failed: seq<Failure>)
    requires b.Wf() && Justified(b.Fates(), failed)
    requires forall i :: 0 <= i < |b.inputs| ==> i in Indices(failed) || b.Fates()[i].None?
    ensures forall i :: 0 <= i < |b.inputs| ==> (i in Indices(failed) <==> b.Fate(i).Some?)
  {
    forall i | 0 <= i < |b.inputs| ensures b.Fates()[i] == b.Fate(i) {}
  }

  // ----- what the reasons mean -----

  /** The cookie is sent: it is one, its date is to come or it is of a session, and Firefox takes the set. */
  predicate Taken(b: Batch, i: nat)
    requires i < |b.inputs| == |b.answers|
  {
    && b.inputs[i].Entry?
    && (b.inputs[i].cookie.session || b.inputs[i].cookie.expirationDate.None?
        || b.inputs[i].cookie.expirationDate.value * 1000 > b.answers[i].now)
    && b.answers[i].throws.None?
  }

  /** An entry is imported exactly when it was taken, Firefox knows the site it asked for, no later entry was
      stored as the same cookie, and the store has its value; otherwise the first of these that fails is
      its reason. */
  lemma ReasonsTell(b: Batch, i: nat)
    requires b.Wf() && i < |b.inputs|
    ensures b.Fate(i).None? <==>
      && Taken(b, i) && b.Keys()[i].Some? && !LaterTwin(b.Keys(), i)
      && b.Keys()[i].value in b.kept && b.kept[b.Keys()[i].value] == b.inputs[i].cookie.value
    ensures b.inputs[i].Malformed? ==> b.Fate(i) == Some(BadEntry(b.inputs[i].error))
    ensures b.inputs[i].Entry? && b.Fate(i) == Some(Expired) ==> !Taken(b, i)
    ensures b.inputs[i].Entry? && !Taken(b, i) && b.answers[i].throws.None? ==> b.Fate(i) == Some(Expired)
    ensures b.Fate(i).Some? && b.Fate(i).value.SetFailed? ==> b.answers[i].throws == Some(b.Fate(i).value.error)
    ensures Taken(b, i) && b.Keys()[i].Some? && LaterTwin(b.Keys(), i) ==> b.Fate(i) == Some(Overwritten)
  {
    assert b.Keys()[i] == b.Key(i);
  }

  /** A batch of cookies as Firefox answers them, none partitioned outside its site without the flag, whose
      dates are to come. */
  ghost predicate Exported(b: Batch) {
    && b.Wf()
    && (forall i :: 0 <= i < |b.inputs| ==>
          Taken(b, i) && Canonical(b.inputs[i].cookie) && !Foreign(b.inputs[i].cookie, b.hosts))
    && (forall i, j :: 0 <= i < j < |b.inputs| ==>
          CookieIdentity(b.inputs[i].cookie) != CookieIdentity(b.inputs[j].cookie))
  }

  lemma ExportedKey(b: Batch, i: nat)
    requires Exported(b) && i < |b.inputs|
    requires var top := SiteOf(b.inputs[i].cookie.partitionKey); top != [] ==> b.sites(top) == Some(top)
    ensures b.Keys()[i] == Some(CookieIdentity(b.inputs[i].cookie))
  {
    ImportIsExact(b.inputs[i].cookie, b.hosts);
    assert b.Keys()[i] == b.Key(i);
  }

  /** What was exported imports back: a batch of exported cookies, each of its own, into a store that keeps
      what is set comes back whole, each cookie as the one it was. */
  lemma ExportsImport(b: Batch)
    requires Exported(b)
    requires forall i :: 0 <= i < |b.inputs| ==>
      var top := SiteOf(b.inputs[i].cookie.partitionKey); top != [] ==> b.sites(top) == Some(top)
    requires forall i :: 0 <= i < |b.inputs| ==>
      var c := b.inputs[i].cookie; CookieIdentity(c) in b.kept && b.kept[CookieIdentity(c)] == c.value
    ensures forall i :: 0 <= i < |b.inputs| ==>
      b.Fate(i).None? && b.Keys()[i] == Some(CookieIdentity(b.inputs[i].cookie))
  {
    forall i | 0 <= i < |b.inputs| ensures b.Keys()[i] == Some(CookieIdentity(b.inputs[i].cookie)) {
      ExportedKey(b, i);
    }
    forall i | 0 <= i < |b.inputs| ensures b.Fate(i).None? { ReasonsTell(b, i); }
  }
}

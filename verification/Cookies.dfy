/**
 The cookie batches (extension/src/handlers/cookies.ts) over a store that keeps one cookie for
 each identity, extending section 5.3 of RFC 6265 by Firefox's partition and first-party keys.
 What Firefox answers is the environment's: whether a set throws, and what the re-queries find.
 A target's identity stands for its key string, by `CookieKeys.KeyIsIdentity`.
 */
module Cookies {
  import opened Base
  import opened Utf8
  import opened CookieKeys

  // ----- deleteCookies -----

  datatype FailedDeletion = FailedDeletion(cookie: Cookie, error: Option<Text>)

  /** The targets whose identity is in `ids`, or those whose identity is not, in order. */
  function Select(targets: seq<Cookie>, ids: set<Identity>, inside: bool): seq<Cookie> {
    if targets == [] then []
    else
      var c := targets[|targets| - 1];
      Select(targets[..|targets| - 1], ids, inside) + if (CookieIdentity(c) in ids) == inside then [c] else []
  }

  lemma SelectAdd(targets: seq<Cookie>, c: Cookie, ids: set<Identity>, inside: bool)
    ensures Select(targets + [c], ids, inside)
         == Select(targets, ids, inside) + if (CookieIdentity(c) in ids) == inside then [c] else []
  {
    assert (targets + [c])[..|targets|] == targets;
  }

  function Ids(targets: seq<Cookie>): set<Identity> {
    set c | c in targets :: CookieIdentity(c)
  }

  function CookiesOf(failed: seq<FailedDeletion>): seq<Cookie> {
    seq(|failed|, i requires 0 <= i < |failed| => failed[i].cookie)
  }

  /** What the set that deletes `c` is stored under. */
  function Tombstone(c: Cookie, hosts: Text -> Text): Identity {
    Requested(ExpireDetails(c), hosts, Some(SiteOf(c.partitionKey)))
  }

  /** Nothing but cookies under `ids` is gone, and nothing is new. */
  ghost predicate GoneWithin(jar: map<Identity, Cookie>, was: map<Identity, Cookie>, ids: set<Identity>) {
    && (forall id :: id in jar ==> id in was && jar[id] == was[id])
    && (forall id :: id in was && id !in ids ==> id in jar)
  }

  /** What getAll answers: every cookie of the store that matches, once. */
  ghost predicate Lists(targets: seq<Cookie>, jar: map<Identity, Cookie>, filter: Cookie -> bool) {
    && (forall c :: c in targets ==> CookieIdentity(c) in jar && jar[CookieIdentity(c)] == c && filter(c))
    && (forall id :: id in jar && filter(jar[id]) ==> jar[id] in targets)
    && (forall i, j :: 0 <= i < j < |targets| ==> targets[i] != targets[j])
  }

  function Tombstones(targets: seq<Cookie>, hosts: Text -> Text): set<Identity> {
    set c | c in targets :: Tombstone(c, hosts)
  }

  /** What those of the first `n` sets that the store obeys are stored under. */
  function ObeyedUpTo(targets: seq<Cookie>, obeys: seq<bool>, n: nat, hosts: Text -> Text): set<Identity>
    requires n <= |obeys| == |targets|
  {
    set i | 0 <= i < n && obeys[i] :: Tombstone(targets[i], hosts)
  }

  function Obeyed(targets: seq<Cookie>, obeys: seq<bool>, hosts: Text -> Text): set<Identity>
    requires |obeys| == |targets|
  {
    ObeyedUpTo(targets, obeys, |targets|, hosts)
  }

  /** One store of Firefox. */
  class Store {
    var jar: map<Identity, Cookie>
    const hosts: Text -> Text

    constructor (jar: map<Identity, Cookie>, hosts: Text -> Text)
      ensures this.jar == jar && this.hosts == hosts
    {
      this.jar, this.hosts := jar, hosts;
    }

    ghost predicate Valid()
      reads this
    {
      forall id :: id in jar ==> CookieIdentity(jar[id]) == id && Canonical(jar[id])
    }

    /** cookies.set with a date in the past: Firefox drops what it has under that identity, or keeps it. */
    method SetExpired(d: Details, site: Text, obeys: bool)
      modifies this
      ensures jar == if obeys then old(jar) - {Requested(d, hosts, Some(site))} else old(jar)
    {
      if obeys { jar := jar - {Requested(d, hosts, Some(site))}; }
    }

    /** The first loop: each target overwritten. */
    method ExpireAll(targets: seq<Cookie>, throws: seq<Option<Text>>, obeys: seq<bool>)
      returns (errors: map<Identity, Text>)
      requires |throws| == |obeys| == |targets| && Distinct(targets)
      modifies this
      ensures jar == old(jar) - Obeyed(targets, obeys, hosts)
      ensures GoneWithin(jar, old(jar), Tombstones(targets, hosts))
      ensures Told(errors, targets, throws, |targets|)
    {
      errors := map[];
      for i := 0 to |targets|
        invariant GoneUpTo(jar, old(jar), targets, obeys, i, hosts)
        invariant Told(errors, targets, throws, i)
      {
        var c := targets[i];
        OneMoreGone(jar, old(jar), targets, obeys, i, hosts);
        SetExpired(ExpireDetails(c), SiteOf(c.partitionKey), obeys[i]);
        ToldOneMore(errors, targets, throws, i);
        if throws[i].Some? { errors := errors[CookieIdentity(c) := throws[i].value]; }
      }
      ObeyedWithin(targets, obeys, hosts);
    }

    /** `throws[i]` is what the set for target `i` throws, if it does, and `obeys[i]` whether the store
        drops what it has there. Every target is answered as deleted or as failed, by whether the store
        still has it; what is stored under no tombstone is left alone, which is every other cookie unless
        a target is foreign to its site. Then too a target is gone exactly when the store obeyed. */
    method DeleteCookies(targets: seq<Cookie>, filter: Cookie -> bool, throws: seq<Option<Text>>, obeys: seq<bool>)
      returns (deleted: seq<Cookie>, failed: seq<FailedDeletion>)
      requires Valid() && Lists(targets, jar, filter) && |throws| == |obeys| == |targets|
      modifies this
      ensures deleted == Select(targets, jar.Keys, false) && CookiesOf(failed) == Select(targets, jar.Keys, true)
      ensures |deleted| + |failed| == |targets|
      ensures Thrown(failed, targets, throws, |targets|)
      ensures GoneWithin(jar, old(jar), Tombstones(targets, hosts))
      ensures (forall c :: c in targets ==> !Foreign(c, hosts)) ==> GoneWithin(jar, old(jar), Ids(targets))
      ensures jar == old(jar) - Obeyed(targets, obeys, hosts)
      ensures (forall c :: c in targets ==> !Foreign(c, hosts)) ==>
        forall i :: 0 <= i < |targets| ==>
          (targets[i] in deleted <==> obeys[i]) && (targets[i] in CookiesOf(failed) <==> !obeys[i])
      ensures Valid()
    {
      ListsAreDistinct(targets, jar, filter);
      ExactTombstones(targets, hosts);
      var errors := ExpireAll(targets, throws, obeys);
      var remaining := set id | id in jar && filter(jar[id]) :: CookieIdentity(jar[id]);
      StillThere(targets, old(jar), jar, filter, remaining);
      deleted, failed := Report(targets, throws, remaining, errors);
      SelectSame(targets, remaining, jar.Keys, false);
      SelectSame(targets, remaining, jar.Keys, true);
      if forall c :: c in targets ==> !Foreign(c, hosts) { ObeyedAreGone(targets, obeys, old(jar), jar, hosts); }
    }
  }

  predicate GoneUpTo(jar: map<Identity, Cookie>, was: map<Identity, Cookie>, targets: seq<Cookie>, obeys: seq<bool>,
      n: nat, hosts: Text -> Text)
    requires n <= |obeys| == |targets|
  {
    jar == was - ObeyedUpTo(targets, obeys, n, hosts)
  }

  lemma OneMoreGone(jar: map<Identity, Cookie>, was: map<Identity, Cookie>, targets: seq<Cookie>, obeys: seq<bool>,
      i: nat, hosts: Text -> Text)
    requires i < |obeys| == |targets| && GoneUpTo(jar, was, targets, obeys, i, hosts)
    ensures GoneUpTo(if obeys[i] then jar - {Tombstone(targets[i], hosts)} else jar, was, targets, obeys, i + 1, hosts)
  {
    ObeyedAdd(targets, obeys, i, hosts);
  }

  lemma ObeyedAdd(targets: seq<Cookie>, obeys: seq<bool>, i: nat, hosts: Text -> Text)
    requires i < |obeys| == |targets|
    ensures ObeyedUpTo(targets, obeys, i + 1, hosts)
         == ObeyedUpTo(targets, obeys, i, hosts) + if obeys[i] then {Tombstone(targets[i], hosts)} else {}
  {}

  lemma ObeyedWithin(targets: seq<Cookie>, obeys: seq<bool>, hosts: Text -> Text)
    requires |obeys| == |targets|
    ensures Obeyed(targets, obeys, hosts) <= Tombstones(targets, hosts)
  {
    forall id | id in Obeyed(targets, obeys, hosts) ensures id in Tombstones(targets, hosts) {
      var i :| 0 <= i < |targets| && obeys[i] && Tombstone(targets[i], hosts) == id;
      assert targets[i] in targets;
    }
  }

  /** Of targets that are not foreign to their sites, exactly those go for which the store obeys. */
  lemma ObeyedAreGone(targets: seq<Cookie>, obeys: seq<bool>, was: map<Identity, Cookie>, jar: map<Identity, Cookie>,
      hosts: Text -> Text)
    requires |obeys| == |targets| && Distinct(targets)
      && (forall c :: c in targets ==> Canonical(c) && !Foreign(c, hosts))
    requires (forall c :: c in targets ==> CookieIdentity(c) in was) && jar == was - Obeyed(targets, obeys, hosts)
    ensures forall i :: 0 <= i < |targets| ==>
      (targets[i] in Select(targets, jar.Keys, false) <==> obeys[i])
        && (targets[i] in Select(targets, jar.Keys, true) <==> !obeys[i])
  {
    forall i | 0 <= i < |targets|
      ensures targets[i] in Select(targets, jar.Keys, false) <==> obeys[i]
      ensures targets[i] in Select(targets, jar.Keys, true) <==> !obeys[i]
    {
      GoneIffObeyed(targets, obeys, i, hosts);
      SelectHas(targets, jar.Keys, false, targets[i]);
      SelectHas(targets, jar.Keys, true, targets[i]);
    }
  }

  lemma GoneIffObeyed(targets: seq<Cookie>, obeys: seq<bool>, i: nat, hosts: Text -> Text)
    requires |obeys| == |targets| && i < |targets| && Distinct(targets)
    requires forall c :: c in targets ==> Canonical(c) && !Foreign(c, hosts)
    ensures CookieIdentity(targets[i]) in Obeyed(targets, obeys, hosts) <==> obeys[i]
  {
    forall k | 0 <= k < |targets| ensures Tombstone(targets[k], hosts) == CookieIdentity(targets[k]) {
      TombstoneIsExact(targets[k], hosts);
    }
  }

  lemma {:induction false} SelectHas(targets: seq<Cookie>, ids: set<Identity>, inside: bool, c: Cookie)
    ensures c in Select(targets, ids, inside) <==> c in targets && (CookieIdentity(c) in ids) == inside
  {
    if targets != [] { SelectHas(targets[..|targets| - 1], ids, inside, c); }
  }

  ghost predicate Distinct(targets: seq<Cookie>) {
    forall i, j :: 0 <= i < j < |targets| ==> CookieIdentity(targets[i]) != CookieIdentity(targets[j])
  }

  /** The errors of the first `n` targets, by identity. */
  ghost predicate Told(errors: map<Identity, Text>, targets: seq<Cookie>, throws: seq<Option<Text>>, n: nat)
    requires |throws| == |targets|
  {
    forall k :: 0 <= k < |targets| ==>
      (CookieIdentity(targets[k]) in errors <==> k < n && throws[k].Some?)
      && (k < n && throws[k].Some? ==> errors[CookieIdentity(targets[k])] == throws[k].value)
  }

  /** Each failure carries what the set of its own cookie threw; `None` reads "Firefox kept the cookie." */
  ghost predicate Thrown(failed: seq<FailedDeletion>, targets: seq<Cookie>, throws: seq<Option<Text>>, n: nat)
    requires |throws| == |targets| && n <= |targets|
  {
    forall j :: 0 <= j < |failed| ==> exists k :: 0 <= k < n && failed[j] == FailedDeletion(targets[k], throws[k])
  }

  lemma CookiesOfMore(failed: seq<FailedDeletion>, f: FailedDeletion)
    ensures CookiesOf(failed + [f]) == CookiesOf(failed) + [f.cookie]
  {}

  /** The second loop: who is gone and who is not. */
  method Report(targets: seq<Cookie>, ghost throws: seq<Option<Text>>, remaining: set<Identity>,
      errors: map<Identity, Text>)
    returns (deleted: seq<Cookie>, failed: seq<FailedDeletion>)
    requires |throws| == |targets| && Told(errors, targets, throws, |targets|)
    ensures deleted == Select(targets, remaining, false) && CookiesOf(failed) == Select(targets, remaining, true)
    ensures |deleted| + |failed| == |targets|
    ensures Thrown(failed, targets, throws, |targets|)
  {
    deleted, failed := [], [];
    for i := 0 to |targets|
      invariant deleted == Select(targets[..i], remaining, false)
      invariant CookiesOf(failed) == Select(targets[..i], remaining, true)
      invariant |deleted| + |failed| == i && Thrown(failed, targets, throws, i)
    {
      var c := targets[i];
      var key := CookieIdentity(c);
      assert targets[..i + 1] == targets[..i] + [c];
      SelectAdd(targets[..i], c, remaining, false);
      SelectAdd(targets[..i], c, remaining, true);
      if key in remaining {
        var f := FailedDeletion(c, if key in errors then Some(errors[key]) else None);
        assert f == FailedDeletion(targets[i], throws[i]);
        CookiesOfMore(failed, f);
        failed := failed + [f];
      } else {
        deleted := deleted + [c];
      }
    }
    assert targets[..|targets|] == targets;
  }

  lemma {:induction false} SelectSame(targets: seq<Cookie>, ids: set<Identity>, others: set<Identity>, inside: bool)
    requires forall c :: c in targets ==> (CookieIdentity(c) in ids <==> CookieIdentity(c) in others)
    ensures Select(targets, ids, inside) == Select(targets, others, inside)
  {
    if targets != [] {
      assert targets[|targets| - 1] in targets;
      SelectSame(targets[..|targets| - 1], ids, others, inside);
    }
  }

  /** What is left of the targets is exactly what the re-query finds. */
  lemma StillThere(targets: seq<Cookie>, was: map<Identity, Cookie>, jar: map<Identity, Cookie>, filter: Cookie -> bool,
      remaining: set<Identity>)
    requires Lists(targets, was, filter) && forall id :: id in was ==> CookieIdentity(was[id]) == id
    requires forall id :: id in jar ==> id in was && jar[id] == was[id]
    requires remaining == set id | id in jar && filter(jar[id]) :: CookieIdentity(jar[id])
    ensures forall c :: c in targets ==> (CookieIdentity(c) in remaining <==> CookieIdentity(c) in jar)
  {}

  lemma ToldOneMore(errors: map<Identity, Text>, targets: seq<Cookie>, throws: seq<Option<Text>>, i: nat)
    requires |throws| == |targets| && Distinct(targets) && i < |targets| && Told(errors, targets, throws, i)
    ensures var told := if throws[i].Some? then errors[CookieIdentity(targets[i]) := throws[i].value] else errors;
      Told(told, targets, throws, i + 1)
  {}

  lemma ListsAreDistinct(targets: seq<Cookie>, jar: map<Identity, Cookie>, filter: Cookie -> bool)
    requires Lists(targets, jar, filter)
    ensures Distinct(targets)
  {}

  lemma ExactTombstones(targets: seq<Cookie>, hosts: Text -> Text)
    requires forall c :: c in targets ==> Canonical(c)
    ensures (forall c :: c in targets ==> !Foreign(c, hosts)) ==> Tombstones(targets, hosts) == Ids(targets)
  {
    if forall c :: c in targets ==> !Foreign(c, hosts) {
      forall c | c in targets ensures Tombstone(c, hosts) == CookieIdentity(c) { TombstoneIsExact(c, hosts); }
    }
  }
}

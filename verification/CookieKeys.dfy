/**
 Which cookie a write touches (extension/src/cookies.ts): the identity Firefox keys a cookie by,
 the details a cookie is written back or deleted with, and the identity Firefox stores for them.
 Hosts come in the form Firefox keeps them: lower case, ASCII, an IPv6 address in brackets.
 */
module CookieKeys {
  import opened Base
  import opened Utf8
  import opened Json

  const DOT: CodeUnit := 0x2E
  const COLON: CodeUnit := 0x3A
  const OPEN: CodeUnit := 0x5B
  const CLOSE: CodeUnit := 0x5D

  datatype PartitionKey = PartitionKey(topLevelSite: Option<Text>, hasCrossSiteAncestor: Option<bool>)

  datatype Cookie = Cookie(
    name: Text, value: Text, domain: Text, hostOnly: bool, path: Text, secure: bool,
    firstPartyDomain: Text, partitionKey: Option<PartitionKey>,
    session: bool, expirationDate: Option<int>)

  /** What the fields of a cookie say about which one it is. */
  datatype Identity = Identity(
    domain: Text, hostOnly: bool, path: Text, name: Text, firstPartyDomain: Text, site: Text, ancestor: bool)

  // ----- identityKey -----

  function LowerUnit(u: CodeUnit): CodeUnit {
    if 0x41 <= u <= 0x5A then u + 0x20 else u
  }

  function Lower(s: Text): (r: Text)
    ensures |r| == |s|
  {
    seq(|s|, i requires 0 <= i < |s| => LowerUnit(s[i]))
  }

  function OrElse<T>(o: Option<T>, t: T): T {
    if o.Some? then o.value else t
  }

  function SiteOf(p: Option<PartitionKey>): Text {
    if p.None? then [] else OrElse(p.value.topLevelSite, [])
  }

  function AncestorOf(p: Option<PartitionKey>): bool {
    if p.None? then false else OrElse(p.value.hasCrossSiteAncestor, false)
  }

  /** The fields `identityKey` compares: no site, no ancestor. */
  function IdentityOf(domain: Text, hostOnly: bool, path: Text, name: Text, firstPartyDomain: Text,
      p: Option<PartitionKey>): Identity {
    var site := SiteOf(p);
    Identity(Lower(domain), hostOnly, path, name, firstPartyDomain, site, if site == [] then false else AncestorOf(p))
  }

  function CookieIdentity(c: Cookie): Identity {
    IdentityOf(c.domain, c.hostOnly, c.path, c.name, c.firstPartyDomain, c.partitionKey)
  }

  function Bool(b: bool): Json {
    if b then Literal([0x74, 0x72, 0x75, 0x65]) else Literal([0x66, 0x61, 0x6C, 0x73, 0x65])
  }

  function Fields(id: Identity): seq<Json> {
    [Str(id.domain), Bool(id.hostOnly), Str(id.path), Str(id.name), Str(id.firstPartyDomain), Str(id.site),
      Bool(id.ancestor)]
  }

  /** The string `identityKey` makes of them. */
  function KeyOf(id: Identity): Text {
    Print(Arr(Fields(id)))
  }

  function IdentityKey(c: Cookie): Text {
    KeyOf(CookieIdentity(c))
  }

  lemma BoolIsPrefixFree(a: bool, x: Text, b: bool, y: Text)
    requires Print(Bool(a)) + x == Print(Bool(b)) + y
    ensures a == b && x == y
  {
    assert (Print(Bool(a)) + x)[0] == Print(Bool(a))[0];
    assert (Print(Bool(b)) + y)[0] == Print(Bool(b))[0];
    assert a == b;
    assert x == (Print(Bool(a)) + x)[|Print(Bool(a))|..];
    assert y == (Print(Bool(b)) + y)[|Print(Bool(b))|..];
  }

  /** Two fields of the same kind: strings, or booleans. */
  predicate Alike(a: Json, b: Json) {
    (a.Str? && b.Str?) || (a in {Bool(true), Bool(false)} && b in {Bool(true), Bool(false)})
  }

  lemma FieldIsPrefixFree(a: Json, x: Text, b: Json, y: Text)
    requires Alike(a, b) && Print(a) + x == Print(b) + y
    ensures a == b && x == y
  {
    if a.Str? { QuotedIsPrefixFree(a.value, x, b.value, y); }
    else { BoolIsPrefixFree(a == Bool(true), x, b == Bool(true), y); }
  }

  /** What is written after the first item. */
  function After(items: seq<Json>): Text
    requires items != []
  {
    if |items| == 1 then [CLOSE] else [0x2C] + PrintItems(items[1..]) + [CLOSE]
  }

  lemma FirstThenRest(items: seq<Json>)
    requires items != []
    ensures PrintItems(items) + [CLOSE] == Print(items[0]) + After(items)
  {}

  lemma {:induction false} ItemsTellThemselvesApart(a: seq<Json>, b: seq<Json>)
    requires |a| == |b| > 0 && (forall i :: 0 <= i < |a| ==> Alike(a[i], b[i]))
    requires PrintItems(a) + [CLOSE] == PrintItems(b) + [CLOSE]
    ensures a == b
  {
    FirstThenRest(a);
    FirstThenRest(b);
    FieldIsPrefixFree(a[0], After(a), b[0], After(b));
    if |a| > 1 {
      AfterFirst(a);
      AfterFirst(b);
      ItemsTellThemselvesApart(a[1..], b[1..]);
    }
    assert a == [a[0]] + a[1..] && b == [b[0]] + b[1..];
  }

  lemma AfterFirst(items: seq<Json>)
    requires |items| > 1
    ensures After(items)[1..] == PrintItems(items[1..]) + [CLOSE]
  {}

  lemma FieldsTellIdentities(i: Identity, j: Identity)
    requires Fields(i) == Fields(j)
    ensures i == j
  {
    var (a, b) := (Fields(i), Fields(j));
    assert a[0] == b[0] && a[1] == b[1] && a[2] == b[2] && a[3] == b[3] && a[4] == b[4] && a[5] == b[5] && a[6] == b[6];
  }

  lemma KeyStarts(i: Identity)
    ensures KeyOf(i) == [OPEN] + (PrintItems(Fields(i)) + [CLOSE])
  {}

  lemma KeyTellsIdentities(i: Identity, j: Identity)
    requires KeyOf(i) == KeyOf(j)
    ensures i == j
  {
    var x, y := PrintItems(Fields(i)) + [CLOSE], PrintItems(Fields(j)) + [CLOSE];
    KeyStarts(i);
    KeyStarts(j);
    assert x == ([OPEN] + x)[1..] && y == ([OPEN] + y)[1..];
    FieldsAreAlike(i, j);
    ItemsTellThemselvesApart(Fields(i), Fields(j));
    FieldsTellIdentities(i, j);
  }

  lemma FieldsAreAlike(i: Identity, j: Identity)
    ensures |Fields(i)| == |Fields(j)| == 7
    ensures forall k :: 0 <= k < 7 ==> Alike(Fields(i)[k], Fields(j)[k])
  {}

  /** The key strings of two cookies are equal exactly when their identities are, whatever characters
      their fields hold. */
  lemma KeyIsIdentity(c: Cookie, d: Cookie)
    ensures IdentityKey(c) == IdentityKey(d) <==> CookieIdentity(c) == CookieIdentity(d)
  {
    var (i, j) := (CookieIdentity(c), CookieIdentity(d));
    if KeyOf(i) == KeyOf(j) { KeyTellsIdentities(i, j); }
  }

  // ----- what is written back -----

  function DropDot(s: Text): Text {
    if s != [] && s[0] == DOT then s[1..] else s
  }

  /** The host of `cookieUrl`. */
  function UrlHost(domain: Text): Text {
    var host := DropDot(domain);
    if COLON in host && host[0] != OPEN then [OPEN] + host + [CLOSE] else host
  }

  /** The part of cookies.set details that says which cookie is meant; `host` is that of the url. */
  datatype Details = Details(
    host: Text, secure: bool, name: Text, value: Text, path: Text, domain: Option<Text>,
    expirationDate: Option<int>, firstPartyDomain: Text, partitionKey: Option<PartitionKey>)

  function SetDetails(c: Cookie): Details {
    Details(UrlHost(c.domain), c.secure, c.name, c.value, c.path, if c.hostOnly then None else Some(c.domain),
            if c.session then None else c.expirationDate, c.firstPartyDomain, c.partitionKey)
  }

  function ExpireDetails(c: Cookie): Details {
    Details(UrlHost(c.domain), c.secure, c.name, if c.name == [] then [0x78] else [], c.path,
            if c.hostOnly then None else Some(c.domain), Some(0), c.firstPartyDomain, c.partitionKey)
  }

  // ----- what Firefox stores for it -----

  predicate Digits(s: Text) {
    s != [] && forall i :: 0 <= i < |s| ==> 0x30 <= s[i] <= 0x39
  }

  function Value(s: Text): int {
    if s == [] then 0 else Value(s[..|s| - 1]) * 10 + (s[|s| - 1] as int - 0x30)
  }

  function Split(s: Text): (parts: seq<Text>)
    ensures parts != []
  {
    if s == [] then [[]]
    else
      var rest := Split(s[1..]);
      if s[0] == DOT then [[]] + rest else [[s[0]] + rest[0]] + rest[1..]
  }

  predicate IsIPv4(host: Text) {
    var octets := Split(host);
    |octets| == 4 && forall i :: 0 <= i < 4 ==> Digits(octets[i]) && Value(octets[i]) < 256
  }

  predicate EndsWith(s: Text, end: Text) {
    |s| >= |end| && s[|s| - |end|..] == end
  }

  predicate IsSubdomain(host: Text, base: Text) {
    host == base || EndsWith(host, [DOT] + base)
  }

  predicate Bracketed(s: Text) {
    |s| >= 2 && s[0] == OPEN && s[|s| - 1] == CLOSE
  }

  function Unbracket(s: Text): Text {
    if Bracketed(s) then s[1..|s| - 1] else s
  }

  /** An address without its brackets. */
  function Bare(d: Text): Text {
    if Bracketed(d) && COLON in d[1..|d| - 1] then d[1..|d| - 1] else d
  }

  function StoredHost(host: Text, domain: Option<Text>): Text {
    if domain.None? then Unbracket(host)
    else
      var d := Lower(if |domain.value| > 1 then DropDot(domain.value) else domain.value);
      var h := Bare(d);
      if COLON in h || IsIPv4(h) then h else [DOT] + h
  }

  /** `requestedCookie(details).key(site)`: `site` is the one Firefox answers for the topLevelSite asked
      for, and `hosts` parses a site. */
  function Requested(d: Details, hosts: Text -> Text, site: Option<Text>): Identity {
    var host := StoredHost(d.host, d.domain);
    var domain := if COLON in host then [OPEN] + host + [CLOSE] else host;
    var hostOnly := host == [] || host[0] != DOT;
    var top := SiteOf(d.partitionKey);
    var partition :=
      if top == [] then None
      else
        var s := OrElse(site, top);
        Some(PartitionKey(Some(s), Some(AncestorOf(d.partitionKey) || !IsSubdomain(host, hosts(s)))));
    IdentityOf(domain, hostOnly, d.path, d.name, d.firstPartyDomain, partition)
  }

  /** A cookie as Firefox answers it: a plain host or an address for a host-only cookie, a leading dot
      and then a host that is neither for any other. */
  predicate Canonical(c: Cookie) {
    && Lower(c.domain) == c.domain && c.domain != []
    && (c.hostOnly ==>
          && c.domain[0] != DOT
          && (if COLON in c.domain then Bracketed(c.domain) && c.domain[1] != DOT else c.domain[0] != OPEN))
    && (!c.hostOnly ==> (
          && c.domain[0] == DOT && |c.domain| > 1 && c.domain[1] != DOT && c.domain[1] != OPEN
          && COLON !in c.domain && !IsIPv4(c.domain[1..])))
  }

  /** The cookie is partitioned under a site that its host lies outside of, and its key does not have
      the ancestor flag, which `getExtPartitionKey` sets for every such host. */
  predicate Foreign(c: Cookie, hosts: Text -> Text) {
    && SiteOf(c.partitionKey) != [] && !AncestorOf(c.partitionKey)
    && !IsSubdomain(Unbracket(c.domain), hosts(SiteOf(c.partitionKey)))
  }

  lemma LowerOfTail(s: Text)
    requires Lower(s) == s && s != []
    ensures Lower(s[1..]) == s[1..]
  {
    forall i | 0 <= i < |s| - 1 ensures LowerUnit(s[1..][i]) == s[1..][i] {
      assert Lower(s)[i + 1] == LowerUnit(s[i + 1]);
    }
  }

  lemma StoredAddress(c: Cookie)
    requires Canonical(c) && c.hostOnly && COLON in c.domain
    ensures var host := StoredHost(UrlHost(c.domain), None);
      host == Unbracket(c.domain) && host != [] && host[0] != DOT && COLON in host
        && [OPEN] + host + [CLOSE] == c.domain
  {
    var inner := c.domain[1..|c.domain| - 1];
    assert c.domain == [OPEN] + inner + [CLOSE];
    assert COLON in inner;
    assert UrlHost(c.domain) == c.domain;
  }

  lemma StoredPlain(c: Cookie)
    requires Canonical(c) && c.hostOnly && COLON !in c.domain
    ensures StoredHost(UrlHost(c.domain), None) == c.domain == Unbracket(c.domain)
  {}

  lemma StoredDomain(c: Cookie)
    requires Canonical(c) && !c.hostOnly
    ensures StoredHost(UrlHost(c.domain), Some(c.domain)) == c.domain == Unbracket(c.domain)
  {
    LowerOfTail(c.domain);
    var base := c.domain[1..];
    assert c.domain == [DOT] + base;
    assert COLON !in base;
    assert Lower(DropDot(c.domain)) == base;
  }

  lemma StoredHostOfCanonical(c: Cookie)
    requires Canonical(c)
    ensures var host := StoredHost(UrlHost(c.domain), if c.hostOnly then None else Some(c.domain));
      && host == Unbracket(c.domain) && host != [] && (host[0] == DOT <==> !c.hostOnly)
      && (if COLON in host then [OPEN] + host + [CLOSE] else host) == c.domain
  {
    if !c.hostOnly { StoredDomain(c); } else if COLON in c.domain { StoredAddress(c); } else { StoredPlain(c); }
  }

  /** Deleting by overwriting hits the cookie it means: Firefox stores the expired one under the
      identity of its target, for every cookie Firefox has but one partitioned under a site that its
      host is outside of without the ancestor flag that says so, and for such a one never. */
  lemma TombstoneIsExact(c: Cookie, hosts: Text -> Text)
    requires Canonical(c)
    ensures Requested(ExpireDetails(c), hosts, Some(SiteOf(c.partitionKey))) == CookieIdentity(c)
      <==> !Foreign(c, hosts)
  {
    StoredHostOfCanonical(c);
  }

  /** The same for writing a cookie as it was exported: it comes back as the cookie it was. */
  lemma ImportIsExact(c: Cookie, hosts: Text -> Text)
    requires Canonical(c)
    ensures Requested(SetDetails(c), hosts, Some(SiteOf(c.partitionKey))) == CookieIdentity(c) <==> !Foreign(c, hosts)
  {
    StoredHostOfCanonical(c);
  }

  /** No set makes such a cookie: whatever was asked for, what Firefox stores has the flag when its
      host is outside its site. `host` of a url is lower case. */
  lemma SetsAreNeverForeign(c: Cookie, d: Details, hosts: Text -> Text, site: Option<Text>)
    requires Canonical(c) && Lower(d.host) == d.host
    requires CookieIdentity(c) == Requested(d, hosts, site)
    ensures !Foreign(c, hosts)
  {
    var host := StoredHost(d.host, d.domain);
    StoredIsLower(d);
    LowerInBrackets(host);
    var domain := if COLON in host then [OPEN] + host + [CLOSE] else host;
    assert c.domain == domain;
    assert Unbracket(c.domain) == host by {
      if COLON in host { assert domain[1..|domain| - 1] == host; }
    }
  }

  lemma LowerAdd(a: Text, b: Text)
    ensures Lower(a + b) == Lower(a) + Lower(b)
  {}

  lemma LowerOfPart(s: Text, i: nat, j: nat)
    requires Lower(s) == s && i <= j <= |s|
    ensures Lower(s[i..j]) == s[i..j]
  {
    forall k | 0 <= k < j - i ensures LowerUnit(s[i..j][k]) == s[i..j][k] {
      assert Lower(s)[i + k] == LowerUnit(s[i + k]);
    }
  }

  lemma LowerInBrackets(s: Text)
    requires Lower(s) == s
    ensures Lower([OPEN] + s + [CLOSE]) == [OPEN] + s + [CLOSE]
  {
    LowerAdd([OPEN] + s, [CLOSE]);
    LowerAdd([OPEN], s);
  }

  lemma LowerTwice(s: Text)
    ensures Lower(Lower(s)) == Lower(s)
  {}

  lemma StoredIsLower(d: Details)
    requires Lower(d.host) == d.host
    ensures Lower(StoredHost(d.host, d.domain)) == StoredHost(d.host, d.domain)
  {
    if d.domain.None? {
      if Bracketed(d.host) { LowerOfPart(d.host, 1, |d.host| - 1); }
    } else {
      var bare := if |d.domain.value| > 1 then DropDot(d.domain.value) else d.domain.value;
      LowerTwice(bare);
      BareAddress(Lower(bare));
      LowerAdd([DOT], Bare(Lower(bare)));
    }
  }

  lemma BareAddress(d: Text)
    requires Lower(d) == d
    ensures Lower(Bare(d)) == Bare(d)
  {
    if Bracketed(d) { LowerOfPart(d, 1, |d| - 1); }
  }

  const OWN_HOST: Text := [0x61, 0x2E, 0x62]                                        // a.b
  const OTHER_HOST: Text := [0x63, 0x2E, 0x64]                                      // c.d
  const OTHER_SITE: Text := [0x68, 0x74, 0x74, 0x70, 0x3A, 0x2F, 0x2F, 0x63, 0x2E, 0x64]   // http://c.d

  /** Such a cookie can be written down: one of a.b, partitioned under http://c.d without the flag. Its
      tombstone lands beside it, under the identity that has the flag. */
  lemma MissedTombstone() returns (c: Cookie, hosts: Text -> Text)
    ensures Canonical(c) && Foreign(c, hosts)
    ensures var hit := Requested(ExpireDetails(c), hosts, Some(SiteOf(c.partitionKey)));
      hit == CookieIdentity(c).(ancestor := true) != CookieIdentity(c)
  {
    hosts := (site: Text) => OTHER_HOST;
    var partition := PartitionKey(Some(OTHER_SITE), Some(false));
    c := Cookie([0x6E], [0x76], OWN_HOST, true, [0x2F], false, [], Some(partition), true, None);
    assert !EndsWith(OWN_HOST, [DOT] + OTHER_HOST);
    StoredHostOfCanonical(c);
    TombstoneIsExact(c, hosts);
  }

  /** What Firefox turns down before it looks at the date: no name and no value. */
  predicate TurnedDown(d: Details) {
    d.name == [] && d.value == []
  }

  /** A tombstone is a set Firefox takes, for the cookie's own name, path, partition and first party, with a
      date long past; a cookie that is written back has its own value and date. */
  lemma TombstonesAreTaken(c: Cookie)
    ensures var d := ExpireDetails(c);
      && !TurnedDown(d) && d.expirationDate == Some(0) && d.secure == c.secure
      && d.name == c.name && d.path == c.path && d.firstPartyDomain == c.firstPartyDomain
      && d.partitionKey == c.partitionKey
    ensures var d := SetDetails(c);
      && d.name == c.name && d.value == c.value && d.path == c.path && d.secure == c.secure
      && d.expirationDate == if c.session then None else c.expirationDate
  {
  }
}

/**
 From a recording to the reply of `stopHar` (extension/src/har-recorder.ts `finish`, har.ts and
 handlers/har.ts `harOf`): every hop becomes a record, the records a log, and the log is redacted
 unless the user opted out and fitted to the reply limit. The counter of dropped bodies comes
 through all of it.
 */
module HarExport {
  import opened Base
  import opened Utf8
  import opened Json
  import opened HarLog
  import opened HarBodies
  import Tee
  import R = Recorder

  // ----- records -----

  /** `isTextual`, `decodeText`, `base64` and the test for multipart/form-data. */
  datatype Codec = Codec(
    textual: Text -> bool, decode: (seq<Byte>, Text) -> Option<Text>, base64: seq<Byte> -> Text,
      multipart: Text -> bool)

  /** What an entry shows of a hop beside its bodies; `error` is the message of a failed filter. */
  datatype Shown = Shown(
    head: seq<Member>, request: seq<Member>, response: seq<Member>, responseTail: seq<Member>, tail: seq<Member>,
    requestType: Text, responseType: Text, status: Option<nat>, redirected: bool, isHead: bool, emptyLength: bool,
    error: Text)

  const NAME := Key("name")
  const VALUE := Key("value")
  const MULTIPART := Key("multipart/form-data: Firefox reports field values and file names alike, "
    + "so a value may be a file name; file contents are not captured")

  function Params(pairs: seq<(Text, Text)>): seq<Json> {
    seq(|pairs|, i requires 0 <= i < |pairs| => Obj([Member(NAME, Str(pairs[i].0)), Member(VALUE, Str(pairs[i].1))]))
  }

  function Parts(parts: seq<R.UploadData>): seq<Part> {
    seq(|parts|, i requires 0 <= i < |parts| => Part(parts[i].file.Some?, parts[i].truncated, parts[i].originalSize))
  }

  /** `finish`: the request body of a hop as `postData` takes it. */
  function PostOf(h: Tee.Hop, store: Option<R.Store>, requestType: Text, codec: Codec): Option<RequestBody> {
    if h.requestDropped then Some(Dropped)
    else if store.None? then None
    else
      match store.value.body
      case KeptError(error) => Some(Errored(error))
      case KeptPairs(pairs) =>
        Some(FormData(Params(pairs), if codec.multipart(requestType) then Some(MULTIPART) else None, store.value.cut))
      case KeptParts(parts) =>
        var text := codec.decode(R.Bytes(parts), requestType);
        var written := if text.Some? then text.value else codec.base64(R.Bytes(parts));
        Some(Raw(Parts(parts), written, text.None?, store.value.cut))
  }

  /** The body of a response as `responseContent` writes it. */
  function TextOf(b: Tee.Body, responseType: Text, codec: Codec): BodyText {
    var bytes := Concat(b.chunks);
    var text := if codec.textual(responseType) then codec.decode(bytes, responseType) else None;
    BodyText(if text.Some? then text.value else codec.base64(bytes), text.None?, b.complete)
  }

  function Record(h: Tee.Hop, store: Option<R.Store>, s: Shown, codec: Codec): HopRecord {
    var size :=
      if h.body.None? then 0
      else if h.body.value.truncated then h.body.value.size
      else |Concat(h.body.value.chunks)|;
    HopRecord(
      s.head, s.request, s.response, s.responseTail, s.tail,
      s.requestType, s.responseType, s.status, s.redirected, s.isHead, s.emptyLength,
      if h.body.Some? then Some(TextOf(h.body.value, s.responseType, codec)) else None,
      size,
      h.body.Some? && h.body.value.truncated,
      if h.body.Some? && h.body.value.error then Some(s.error) else None,
      h.bodyDropped,
      PostOf(h, store, s.requestType, codec))
  }

  /** The hops as `buildLog` goes through them; `order` sorts them by their start. */
  function Records(hops: seq<Tee.Hop>, stores: seq<Option<R.Store>>, shown: seq<Shown>, order: seq<nat>,
      codec: Codec): seq<HopRecord>
    requires |stores| == |shown| == |hops| && forall k :: 0 <= k < |order| ==> order[k] < |hops|
  {
    seq(|order|, k requires 0 <= k < |order| => Record(hops[order[k]], stores[order[k]], shown[order[k]], codec))
  }

  /** Whatever run the recorder had, no record says both that its body was dropped and what it was. */
  lemma RecordsAreSound(r: Tee.Recording, initial: nat, stores: seq<Option<R.Store>>, shown: seq<Shown>,
      order: seq<nat>, codec: Codec)
    requires Tee.Inv(r, initial)
    requires |stores| == |shown| == |r.hops| && forall k :: 0 <= k < |order| ==> order[k] < |r.hops|
    ensures var records := Records(r.hops, stores, shown, order, codec);
      forall k :: 0 <= k < |records| ==> Recorded(records[k])
  {
    forall k | 0 <= k < |order| ensures Recorded(Record(r.hops[order[k]], stores[order[k]], shown[order[k]], codec)) {
      assert Tee.HopOk(r.maxBodySize, r.stopped, r.hops[order[k]]);
    }
  }

  // ----- what an entry shows of what the recorder kept -----

  /** Bytes as text, when they decode, or else in base64. */
  function Written(bytes: seq<Byte>, decoded: Option<Text>, codec: Codec): Text {
    if decoded.Some? then decoded.value else codec.base64(bytes)
  }

  function Decoded(bytes: seq<Byte>, responseType: Text, codec: Codec): Option<Text> {
    if codec.textual(responseType) then codec.decode(bytes, responseType) else None
  }

  /** The content of a response against the body the recorder has: exactly the stored bytes, in the form
      they are written, with what they lack. */
  predicate BodyTold(content: seq<Member>, h: Tee.Hop, s: Shown, codec: Codec) {
    if h.body.None? then
      Get(content, TEXT) == None && Get(content, ENCODING) == None && Get(content, SIZE) == Some(Number(0))
    else
      var bytes := Concat(h.body.value.chunks);
      var decoded := Decoded(bytes, s.responseType, codec);
      && Get(content, TEXT) == Some(Str(Written(bytes, decoded, codec)))
      && Get(content, ENCODING) == When(decoded.None?, BASE64)
      && Get(content, COMPLETE) == When(!h.body.value.complete, FALSE)
      && Get(content, TRUNCATED) == When(h.body.value.truncated, TRUE)
      && Get(content, SIZE) == Some(Number(if h.body.value.truncated then h.body.value.size else |bytes|))
      && Get(content, BODY_ERROR) == When(h.body.value.error, Str(s.error))
  }

  /** The post data of a request against what was kept of its body. */
  predicate PostTold(post: Option<seq<Member>>, h: Tee.Hop, store: Option<R.Store>, s: Shown, codec: Codec) {
    && (post.Some? <==> h.requestDropped || store.Some?)
    && (post.Some? && !h.requestDropped ==>
          match store.value.body
          case KeptError(error) => Get(post.value, ERROR) == Some(Str(error))
          case KeptPairs(pairs) =>
            && Get(post.value, TRUNCATED) == When(store.value.cut, TRUE)
            && var params := Get(post.value, PARAMS);
            params.Some? && params.value.Arr? && ParamsTold(params.value.items, pairs)
          case KeptParts(parts) =>
            var decoded := codec.decode(R.Bytes(parts), s.requestType);
            && Get(post.value, TEXT) == Some(Str(Written(R.Bytes(parts), decoded, codec)))
            && Get(post.value, POST_ENCODING) == When(decoded.None?, BASE64)
            && Get(post.value, TRUNCATED) == When(store.value.cut, TRUE))
  }

  /** Each pair, in order, as an object of its name and its value. */
  predicate ParamsTold(items: seq<Json>, pairs: seq<(Text, Text)>) {
    && |items| == |pairs|
    && forall i :: 0 <= i < |pairs| ==>
         items[i].Obj? && Get(items[i].members, NAME) == Some(Str(pairs[i].0))
           && Get(items[i].members, VALUE) == Some(Str(pairs[i].1))
  }

  lemma ParamsAreTold(pairs: seq<(Text, Text)>)
    ensures ParamsTold(Params(pairs), pairs)
  {
    assert |NAME| == 4 && |VALUE| == 5;
    forall i | 0 <= i < |pairs| ensures Get(Params(pairs)[i].members, VALUE) == Some(Str(pairs[i].1)) {
      assert Params(pairs)[i].members[1..] == [Member(VALUE, Str(pairs[i].1))];
    }
  }

  lemma RecordTellsBody(content: seq<Member>, h: Tee.Hop, store: Option<R.Store>, s: Shown, codec: Codec)
    requires ContentShows(content, Record(h, store, s, codec))
    ensures BodyTold(content, h, s, codec)
  {
  }

  lemma RecordTellsPost(post: Option<seq<Member>>, h: Tee.Hop, store: Option<R.Store>, s: Shown, codec: Codec)
    requires var hop := Record(h, store, s, codec);
      && (post.Some? <==> hop.requestBody.Some?)
      && (post.Some? ==> PostShows(post.value, hop.requestType, hop.requestBody.value))
    ensures PostTold(post, h, store, s, codec)
  {
    if post.Some? && !h.requestDropped && store.value.body.KeptPairs? { ParamsAreTold(store.value.body.pairs); }
  }

  /** An entry of the reply: the one built for its hop or that one emptied, showing each body it does not
      flag, and flagging none that the recorder has unless it was emptied to make the reply fit. */
  predicate EntryTold(e: HarEntry, own: HarEntry, h: Tee.Hop, store: Option<R.Store>, s: Shown, codec: Codec) {
    && (e == own || e == Shell(own).0)
    && (Flagged(e.content) ==> (e == Shell(own).0 && FilledContent(own.content)) || (h.bodyDropped && h.body.None?))
    && (!Flagged(e.content) ==> BodyTold(e.content, h, s, codec))
    && (e.post.Some? <==> h.requestDropped || store.Some?)
    && (e.post.Some? && Flagged(e.post.value) ==> (e == Shell(own).0 && FilledPost(own.post)) || h.requestDropped)
    && (e.post.Some? && !Flagged(e.post.value) ==> PostTold(e.post, h, store, s, codec))
  }

  lemma EntriesTell(e: HarEntry, own: HarEntry, h: Tee.Hop, store: Option<R.Store>, s: Shown, codec: Codec)
    requires var rec := Record(h, store, s, codec);
      Recorded(rec) && own.content == Content(rec) && own.post == PostData(rec)
    requires e == own || e == Shell(own).0
    ensures EntryTold(e, own, h, store, s, codec)
  {
    var rec := Record(h, store, s, codec);
    EntryIsShown(rec);
    ShellShows(own, rec, NAME);
    ContentKeys(rec);
    if own.post.Some? { PostKeys(rec); }
    if !Flagged(e.content) { RecordTellsBody(e.content, h, store, s, codec); }
    if e.post.Some? && !Flagged(e.post.value) { RecordTellsPost(e.post, h, store, s, codec); }
  }

  // ----- redaction -----

  const HEADERS := Key("headers")
  const COOKIES := Key("cookies")
  const REDACTED := Key("[redacted]")
  const SENSITIVE: seq<Text> := [
    Key("set-cookie"), Key("cookie"), Key("authorization"), Key("proxy-authorization"), Key("www-authenticate"),
    Key("proxy-authenticate")]

  /** `toLowerCase`, as far as it can give an ASCII letter; the Kelvin sign is the one such case beyond ASCII. */
  function LowerUnit(u: CodeUnit): CodeUnit {
    if 0x41 <= u <= 0x5A then u + 0x20 else if u == 0x212A then 0x6B else u
  }

  function Lower(s: Text): Text {
    seq(|s|, i requires 0 <= i < |s| => LowerUnit(s[i]))
  }

  predicate Sensitive(header: Json) {
    && header.Obj?
    && var name := Get(header.members, NAME);
    name.Some? && name.value.Str? && Lower(name.value.value) in SENSITIVE
  }

  function RedactHeader(header: Json): Json {
    if Sensitive(header)
    then Obj([Member(NAME, Get(header.members, NAME).value), Member(VALUE, Str(REDACTED))])
    else header
  }

  function RedactCookie(cookie: Json): Json {
    if cookie.Obj? then Obj(Put(cookie.members, VALUE, Str(REDACTED))) else cookie
  }

  /** The list under a key of a request or a response. */
  function List(members: seq<Member>, key: Text): seq<Json> {
    var list := Get(members, key);
    if list.Some? && list.value.Arr? then list.value.items else []
  }

  function RedactItem(key: Text, item: Json): Json {
    if key == HEADERS then RedactHeader(item) else RedactCookie(item)
  }

  function RedactList(members: seq<Member>, key: Text): seq<Member> {
    var list := Get(members, key);
    if list.None? || !list.value.Arr? then members
    else
      var items := list.value.items;
      Put(members, key, Arr(seq(|items|, i requires 0 <= i < |items| => RedactItem(key, items[i]))))
  }

  function RedactMembers(members: seq<Member>): seq<Member> {
    RedactList(RedactList(members, HEADERS), COOKIES)
  }

  /** `redactEntry`. */
  function RedactEntry(e: HarEntry): HarEntry {
    e.(request := RedactMembers(e.request), response := RedactMembers(e.response))
  }

  function Redact(h: Har): Har {
    h.(entries := seq(|h.entries|, i requires 0 <= i < |h.entries| => RedactEntry(h.entries[i])))
  }

  /** No credential header and no cookie shows its value. */
  predicate Hidden(members: seq<Member>) {
    && (forall h :: h in List(members, HEADERS) && Sensitive(h) ==> Get(h.members, VALUE) == Some(Str(REDACTED)))
    && (forall c :: c in List(members, COOKIES) && c.Obj? ==> Get(c.members, VALUE) == Some(Str(REDACTED)))
  }

  lemma ListRedacted(members: seq<Member>, key: Text, k: Text)
    ensures k != key ==>
      Get(RedactList(members, key), k) == Get(members, k) && List(RedactList(members, key), k) == List(members, k)
    ensures var before := List(members, key); var now := List(RedactList(members, key), key);
      && |now| == |before|
      && forall i :: 0 <= i < |now| ==> now[i] == RedactItem(key, before[i])
  {
    if Get(members, key).Some? && Get(members, key).value.Arr? {
      var value := Get(RedactList(members, key), key);
      var items := List(members, key);
      var now := Arr(seq(|items|, i requires 0 <= i < |items| => RedactItem(key, items[i])));
      GetPut(members, key, now, k);
      GetPut(members, key, now, key);
    }
  }

  lemma HeaderRedacted(h: Json)
    ensures Sensitive(RedactHeader(h)) <==> Sensitive(h)
    ensures Sensitive(h) ==> Get(RedactHeader(h).members, VALUE) == Some(Str(REDACTED))
  {
    assert |NAME| == 4 && |VALUE| == 5;
  }

  /** The headers that carry credentials, in whatever case they are written, and the value each is shown with. */
  lemma CredentialsAreSensitive(name: Text, value: Json)
    requires Lower(name) in {Key("set-cookie"), Key("cookie"), Key("authorization"), Key("proxy-authorization"),
      Key("www-authenticate"), Key("proxy-authenticate")}
    ensures RedactHeader(Obj([Member(NAME, Str(name)), Member(VALUE, value)]))
         == Obj([Member(NAME, Str(name)), Member(VALUE, Str(Key("[redacted]")))])
  {
    assert SENSITIVE[0] == Key("set-cookie") && SENSITIVE[1] == Key("cookie") && SENSITIVE[2] == Key("authorization");
    assert SENSITIVE[3] == Key("proxy-authorization") && SENSITIVE[4] == Key("www-authenticate");
    assert SENSITIVE[5] == Key("proxy-authenticate");
  }

  /** Redaction hides every credential and every cookie value, of requests and responses alike, and
      changes nothing else: other members, other headers, the names of headers and cookies. */
  lemma RedactionHides(members: seq<Member>, key: Text)
    ensures var r := RedactMembers(members);
      && Hidden(r)
      && (key != HEADERS && key != COOKIES ==> Get(r, key) == Get(members, key))
      && |List(r, HEADERS)| == |List(members, HEADERS)| && |List(r, COOKIES)| == |List(members, COOKIES)|
      && (forall i :: 0 <= i < |List(r, HEADERS)| && !Sensitive(List(members, HEADERS)[i]) ==>
            List(r, HEADERS)[i] == List(members, HEADERS)[i])
      && (forall i :: 0 <= i < |List(r, COOKIES)| && List(r, COOKIES)[i].Obj? && key != VALUE ==>
            && List(members, COOKIES)[i].Obj?
            && Get(List(r, COOKIES)[i].members, key) == Get(List(members, COOKIES)[i].members, key))
  {
    assert |HEADERS| == 7 && |COOKIES| == 7 && HEADERS[0] == 0x68 && COOKIES[0] == 0x63;
    var half := RedactList(members, HEADERS);
    ListRedacted(members, HEADERS, key);
    ListRedacted(members, HEADERS, COOKIES);
    ListRedacted(half, COOKIES, key);
    ListRedacted(half, COOKIES, HEADERS);
    var r := RedactMembers(members);
    forall h | h in List(r, HEADERS) && Sensitive(h) ensures Get(h.members, VALUE) == Some(Str(REDACTED)) {
      var i :| 0 <= i < |List(r, HEADERS)| && List(r, HEADERS)[i] == h;
      HeaderRedacted(List(members, HEADERS)[i]);
    }
    forall i | 0 <= i < |List(r, COOKIES)| && List(r, COOKIES)[i].Obj?
      ensures List(members, COOKIES)[i].Obj? && Get(List(r, COOKIES)[i].members, VALUE) == Some(Str(REDACTED))
      ensures key != VALUE ==> Get(List(r, COOKIES)[i].members, key) == Get(List(members, COOKIES)[i].members, key)
    {
      var cookie := List(members, COOKIES)[i];
      GetPut(cookie.members, VALUE, Str(REDACTED), VALUE);
      GetPut(cookie.members, VALUE, Str(REDACTED), key);
    }
  }

  /** Redaction flags no body and unflags none. */
  lemma {:induction false} RedactionKeepsFlags(h: Har)
    ensures CountFlags(Redact(h).entries) == CountFlags(h.entries)
    decreases |h.entries|
  {
    if h.entries != [] {
      var n := |h.entries| - 1;
      RedactionKeepsFlags(h.(entries := h.entries[..n]));
      assert Redact(h).entries[..n] == Redact(h.(entries := h.entries[..n])).entries;
    }
  }

  // ----- all of it -----

  function Show(h: Har, redact: bool): Har {
    if redact then Redact(h) else h
  }

  lemma ShownIsSound(h: Har, redact: bool)
    requires Sound(h)
    ensures Sound(Show(h, redact)) && |Show(h, redact).entries| == |h.entries|
    ensures redact ==> forall i :: 0 <= i < |h.entries| ==>
      Hidden(Show(h, redact).entries[i].request) && Hidden(Show(h, redact).entries[i].response)
  {
    RedactionKeepsFlags(h);
    forall i | redact && 0 <= i < |h.entries|
      ensures Hidden(RedactMembers(h.entries[i].request)) && Hidden(RedactMembers(h.entries[i].response))
    {
      RedactionHides(h.entries[i].request, NAME);
      RedactionHides(h.entries[i].response, NAME);
    }
  }

  /** Whatever happened while the recorder ran, however the log is ordered, redacted and fitted:
      `droppedBodies` is the number of bodies flagged `_bodyDropped`, and no flagged body has a payload. */
  lemma {:induction false} DroppedBodiesAreTold(
    maxBodySize: nat, budget: nat, es: seq<Tee.Event>, stores: seq<Option<R.Store>>, shown: seq<Shown>, order: seq<nat>,
    codec: Codec, head: seq<Member>, before: seq<Member>, after: seq<Member>, redact: bool, k: nat)
    requires var hops := Tee.Steps(Tee.Fresh(maxBodySize, budget), es).hops;
      |stores| == |shown| == |hops| && forall j :: 0 <= j < |order| ==> order[j] < |hops|
    ensures var hops := Tee.Steps(Tee.Fresh(maxBodySize, budget), es).hops;
      var har := Show(BuildLog(head, Records(hops, stores, shown, order, codec), before, after), redact);
      Sound(har) && (k <= |Queue(har.entries)| ==> Sound(Fitted(har, Queue(har.entries), k)))
  {
    Tee.RunKeeps(Tee.Fresh(maxBodySize, budget), budget, es);
    LogIsSound(Tee.Steps(Tee.Fresh(maxBodySize, budget), es), budget, stores, shown, order, codec, head, before, after,
      redact, k);
  }

  lemma LogIsSound(
    r: Tee.Recording, initial: nat, stores: seq<Option<R.Store>>, shown: seq<Shown>, order: seq<nat>,
    codec: Codec, head: seq<Member>, before: seq<Member>, after: seq<Member>, redact: bool, k: nat)
    requires Tee.Inv(r, initial)
    requires |stores| == |shown| == |r.hops| && forall j :: 0 <= j < |order| ==> order[j] < |r.hops|
    ensures var har := Show(BuildLog(head, Records(r.hops, stores, shown, order, codec), before, after), redact);
      Sound(har) && (k <= |Queue(har.entries)| ==> Sound(Fitted(har, Queue(har.entries), k)))
  {
    var records := Records(r.hops, stores, shown, order, codec);
    RecordsAreSound(r, initial, stores, shown, order, codec);
    BuildLogIsSound(head, records, before, after);
    ShownIsSound(BuildLog(head, records, before, after), redact);
    var har := Show(BuildLog(head, records, before, after), redact);
    QueueIsSorted(har.entries);
    if k <= |Queue(har.entries)| { FittingKeepsTheCount(har, Queue(har.entries), k); }
  }

  /** An entry that lost its bodies to the limit shows the same request and response otherwise. */
  lemma FittingHides(h: Har, k: nat, i: nat)
    requires k <= |Queue(h.entries)| && i < |h.entries|
    ensures var f := Fitted(h, Queue(h.entries), k);
      |f.entries| == |h.entries| && f.entries[i].request == h.entries[i].request
        && f.entries[i].response == h.entries[i].response
        && (f.entries[i] == h.entries[i] || f.entries[i] == Shell(h.entries[i]).0)
  {
    QueueIsSorted(h.entries);
    FittedEntry(h, Queue(h.entries), k, i);
  }

  /** The entry built for hop `i` of a recording, as it is shown. */
  function Own(h: Tee.Hop, store: Option<R.Store>, s: Shown, codec: Codec, redact: bool): HarEntry {
    var e := Entry(Record(h, store, s, codec));
    if redact then RedactEntry(e) else e
  }

  /** `harOf`: the reply fits, tells how many bodies it lacks and, redacted, shows no credential.
      It fails exactly when the log without any body is still too large. Its entries are those of the
      hops, in the given order; each shows what the recorder kept of its bodies, or flags it as dropped. */
  method HarOf(
    r: R.HarRecording, shown: seq<Shown>, order: seq<nat>, codec: Codec,
    head: seq<Member>, before: seq<Member>, after: seq<Member>, redact: bool, limit: nat) returns (result: Option<Har>)
    requires r.Sound() && |shown| == |r.hops| && forall k :: 0 <= k < |order| ==> order[k] < |r.hops|
    ensures result.Some? ==> Sound(result.value) && Fits(result.value, limit) && |result.value.entries| == |order|
    ensures result.Some? && redact ==> forall i :: 0 <= i < |order| ==>
      Hidden(result.value.entries[i].request) && Hidden(result.value.entries[i].response)
    ensures var har := Show(BuildLog(head, Records(r.hops, r.stores, shown, order, codec), before, after), redact);
      result.None? <==> NoneFits(har, Queue(har.entries), |Queue(har.entries)| + 1, limit)
    ensures result.Some? ==> forall k :: 0 <= k < |order| ==>
      var (h, store, s) := (r.hops[order[k]], r.stores[order[k]], shown[order[k]]);
      EntryTold(result.value.entries[k], Own(h, store, s, codec, redact), h, store, s, codec)
  {
    var records := Records(r.hops, r.stores, shown, order, codec);
    RecordsAreSound(r.View(), r.initial, r.stores, shown, order, codec);
    BuildLogIsSound(head, records, before, after);
    ShownIsSound(BuildLog(head, records, before, after), redact);
    var har := Show(BuildLog(head, records, before, after), redact);
    result := FitLog(har, limit);
    if result.Some? {
      FittedTells(har, result.value, limit);
      forall k | 0 <= k < |order|
        ensures var (h, store, s) := (r.hops[order[k]], r.stores[order[k]], shown[order[k]]);
          EntryTold(result.value.entries[k], Own(h, store, s, codec, redact), h, store, s, codec)
      {
        var (h, store, s) := (r.hops[order[k]], r.stores[order[k]], shown[order[k]]);
        assert records[k] == Record(h, store, s, codec) && har.entries[k] == Own(h, store, s, codec, redact);
        EntriesTell(result.value.entries[k], har.entries[k], h, store, s, codec);
      }
    }
  }

  lemma FittedTells(h: Har, f: Har, limit: nat)
    requires Sound(h)
    requires exists k :: 0 <= k <= |Queue(h.entries)| && Shortest(h, k, limit) && f == Fitted(h, Queue(h.entries), k)
    ensures Sound(f) && Fits(f, limit) && |f.entries| == |h.entries|
    ensures forall i :: 0 <= i < |h.entries| ==>
      && f.entries[i].request == h.entries[i].request && f.entries[i].response == h.entries[i].response
      && (f.entries[i] == h.entries[i] || f.entries[i] == Shell(h.entries[i]).0)
  {
    var k :| 0 <= k <= |Queue(h.entries)| && Shortest(h, k, limit) && f == Fitted(h, Queue(h.entries), k);
    QueueIsSorted(h.entries);
    FittingKeepsTheCount(h, Queue(h.entries), k);
    FittedLength(h, Queue(h.entries), k);
    forall i | 0 <= i < |h.entries|
      ensures f.entries[i].request == h.entries[i].request && f.entries[i].response == h.entries[i].response
      ensures f.entries[i] == h.entries[i] || f.entries[i] == Shell(h.entries[i]).0
    {
      FittingHides(h, k, i);
    }
  }

  lemma {:induction false} FittedLength(h: Har, queue: seq<Candidate>, k: nat)
    requires k <= |queue|
    ensures |Fitted(h, queue, k).entries| == |h.entries|
  {
    if k > 0 { FittedLength(h, queue, k - 1); }
  }
}

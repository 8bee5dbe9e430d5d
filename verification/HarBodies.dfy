/**
 What an entry of the log shows of its bodies (extension/src/har.ts, `responseContent`, `postData`), key by
 key, and what is left of it when its bodies are dropped to fit the reply.
 */
module HarBodies {
  import opened Base
  import opened Utf8
  import opened Json
  import opened HarLog

  const SIZE := Key("size")
  const MIME := Key("mimeType")
  const COMPLETE := Key("_complete")
  const TRUNCATED := Key("_truncated")
  const BODY_ERROR := Key("_bodyError")
  const ERROR := Key("_error")
  const FORM_DATA := Key("_formData")
  const COMMENT := Key("comment")
  const POST_ENCODING := Key("_encoding")
  const FALSE: Json := Literal([0x66, 0x61, 0x6C, 0x73, 0x65])
  const BASE64 := Str(Key("base64"))

  const CONTENT_KEYS: seq<Text> := [SIZE, MIME, TEXT, ENCODING, COMPLETE, TRUNCATED, BODY_DROPPED, BODY_ERROR]
  const POST_KEYS: seq<Text> := [
    MIME, TEXT, PARAMS, BODY_DROPPED, ERROR, FORM_DATA, COMMENT, TRUNCATED, POST_ENCODING, FILE_PARTS, BY_BROWSER,
    ORIGINAL_SIZE]

  lemma ContentKeysDiffer()
    ensures forall i, j :: 0 <= i < j < |CONTENT_KEYS| ==> CONTENT_KEYS[i] != CONTENT_KEYS[j]
  {
    assert |SIZE| == |TEXT| == 4 && SIZE[0] == 0x73 && TEXT[0] == 0x74;
    assert |MIME| == |ENCODING| == 8 && MIME[0] == 0x6D && ENCODING[0] == 0x65;
    assert |COMPLETE| == 9 && |BODY_DROPPED| == 12;
    assert |TRUNCATED| == |BODY_ERROR| == 10 && TRUNCATED[1] == 0x74 && BODY_ERROR[1] == 0x62;
  }

  lemma PostKeysDiffer()
    ensures forall i, j :: 0 <= i < j < |POST_KEYS| ==> POST_KEYS[i] != POST_KEYS[j]
  {
    assert |MIME| == 8 && |TEXT| == 4 && |BODY_DROPPED| == 12 && |COMMENT| == 7 && |BY_BROWSER| == 19
      && |ORIGINAL_SIZE| == 13;
    assert |PARAMS| == |ERROR| == 6 && PARAMS[0] == 0x70 && ERROR[0] == 0x5F;
    assert |FORM_DATA| == |POST_ENCODING| == 9 && FORM_DATA[1] == 0x66 && POST_ENCODING[1] == 0x65;
    assert |TRUNCATED| == |FILE_PARTS| == 10 && TRUNCATED[1] == 0x74 && FILE_PARTS[1] == 0x66;
  }

  function When(present: bool, value: Json): Option<Json> {
    if present then Some(value) else None
  }

  // ----- the response -----

  /** The content of a response shows exactly its record: the body's text whenever there is a body. */
  predicate ContentShows(content: seq<Member>, hop: HopRecord) {
    && Get(content, SIZE) == Some(Number(hop.size))
    && Get(content, MIME) == Some(Str(hop.responseType))
    && (hop.body.Some? ==>
          && Get(content, TEXT) == Some(Str(hop.body.value.text))
          && Get(content, ENCODING) == When(hop.body.value.base64, BASE64)
          && Get(content, COMPLETE) == When(!hop.body.value.complete, FALSE))
    && (hop.body.None? ==>
          Get(content, TEXT) == None && Get(content, ENCODING) == None && Get(content, COMPLETE) == None)
    && Get(content, TRUNCATED) == When(hop.truncated, TRUE)
    && Get(content, BODY_DROPPED) == When(DroppedBody(hop), TRUE)
    && Get(content, BODY_ERROR) == if hop.bodyError.Some? then Some(Str(hop.bodyError.value)) else None
  }

  lemma HeadGet(hop: HopRecord, key: Text)
    ensures SIZE != MIME
    ensures Get(ContentParts(hop)[0], key)
         == if key == SIZE then Some(Number(hop.size)) else if key == MIME then Some(Str(hop.responseType)) else None
  {
    ContentKeysDiffer();
    assert CONTENT_KEYS[0] == SIZE && CONTENT_KEYS[1] == MIME;
    assert ContentParts(hop)[0][1..] == [Member(MIME, Str(hop.responseType))];
    SingleGet([Member(MIME, Str(hop.responseType))], MIME, key);
  }

  /** Part `p` of a content object alone holds its key. */
  lemma PartAlone(hop: HopRecord, p: nat)
    requires 1 <= p < 7
    ensures Get(Content(hop), CONTENT_KEYS[p + 1]) == Get(ContentParts(hop)[p], CONTENT_KEYS[p + 1])
  {
    ContentKeysDiffer();
    var parts, key := ContentParts(hop), CONTENT_KEYS[p + 1];
    assert CONTENT_KEYS[0] == SIZE && CONTENT_KEYS[1] == MIME;
    forall i | 0 <= i < |parts| && i != p ensures Get(parts[i], key) == None {
      if i == 0 {
        HeadGet(hop, key);
      } else {
        SingleGet(parts[i], CONTENT_KEYS[i + 1], key);
      }
    }
    OnlyPart(parts, p, key);
  }

  lemma PartIs(hop: HopRecord, p: nat, key: Text)
    requires 1 <= p < 7 && CONTENT_KEYS[p + 1] == key && Single(ContentParts(hop)[p], key)
    ensures var part := ContentParts(hop)[p]; Get(Content(hop), key) == if part != [] then Some(part[0].value) else None
  {
    PartAlone(hop, p);
    SingleGet(ContentParts(hop)[p], key, key);
  }

  lemma HeadAlone(hop: HopRecord)
    ensures Get(Content(hop), SIZE) == Some(Number(hop.size)) && Get(Content(hop), MIME) == Some(Str(hop.responseType))
  {
    ContentKeysDiffer();
    var parts := ContentParts(hop);
    forall i | 0 < i < |parts| ensures Get(parts[i], SIZE) == None && Get(parts[i], MIME) == None {
      assert CONTENT_KEYS[0] == SIZE && CONTENT_KEYS[1] == MIME;
      SingleGet(parts[i], CONTENT_KEYS[i + 1], SIZE);
      SingleGet(parts[i], CONTENT_KEYS[i + 1], MIME);
    }
    HeadGet(hop, SIZE);
    HeadGet(hop, MIME);
    OnlyPart(parts, 0, SIZE);
    OnlyPart(parts, 0, MIME);
  }

  lemma ContentIsShown(hop: HopRecord)
    ensures ContentShows(Content(hop), hop)
  {
    HeadAlone(hop);
    PartIs(hop, 1, TEXT);
    PartIs(hop, 2, ENCODING);
    PartIs(hop, 3, COMPLETE);
    PartIs(hop, 4, TRUNCATED);
    PartIs(hop, 5, BODY_DROPPED);
    PartIs(hop, 6, BODY_ERROR);
  }

  // ----- the request -----

  /** The size Firefox gave of the first substream it cut. */
  function FirstOriginal(parts: seq<Part>): Option<nat> {
    if parts == [] then None
    else
      var before, last := FirstOriginal(parts[..|parts| - 1]), parts[|parts| - 1];
      if before.Some? || !last.truncated then before else last.originalSize
  }

  function OriginalSize(parts: seq<Part>): Option<Json> {
    var size := FirstOriginal(parts);
    if size.Some? then Some(Number(size.value)) else None
  }

  predicate AnyCut(parts: seq<Part>) {
    exists i :: 0 <= i < |parts| && parts[i].truncated
  }

  /** The post data of a request shows exactly what was kept of its body. */
  predicate PostShows(post: seq<Member>, mimeType: Text, b: RequestBody) {
    && Get(post, MIME) == Some(Str(mimeType))
    && Get(post, BODY_DROPPED) == When(b.Dropped?, TRUE)
    && match b
       case Dropped => Get(post, TEXT) == None && Get(post, PARAMS) == None
       case Errored(error) => Get(post, TEXT) == Some(Str([])) && Get(post, PARAMS) == None
         && Get(post, ERROR) == Some(Str(error))
       case FormData(params, comment, cut) =>
         && Get(post, TEXT) == None && Get(post, PARAMS) == Some(Arr(params)) && Get(post, FORM_DATA) == Some(TRUE)
         && Get(post, COMMENT) == (if comment.Some? then Some(Str(comment.value)) else None)
         && Get(post, TRUNCATED) == When(cut, TRUE)
       case Raw(parts, text, base64, cut) =>
         && Get(post, TEXT) == Some(Str(text)) && Get(post, PARAMS) == None
         && Get(post, POST_ENCODING) == When(base64, BASE64) && Get(post, TRUNCATED) == When(cut, TRUE)
         && Get(post, FILE_PARTS) == When(FileParts(parts) > 0, Number(FileParts(parts)))
         && Get(post, BY_BROWSER) == When(AnyCut(parts), TRUE)
         && Get(post, ORIGINAL_SIZE) == OriginalSize(parts)
  }

  lemma AnyCutAdd(parts: seq<Part>)
    requires parts != []
    ensures AnyCut(parts) <==> AnyCut(parts[..|parts| - 1]) || parts[|parts| - 1].truncated
  {
    var init := parts[..|parts| - 1];
    if AnyCut(init) {
      var i :| 0 <= i < |init| && init[i].truncated;
      assert parts[i].truncated;
    }
    if AnyCut(parts) {
      var i :| 0 <= i < |parts| && parts[i].truncated;
      assert i < |init| ==> init[i].truncated;
    }
  }

  /** What the loop over raw parts sets. */
  lemma {:induction false} FlagsTell(parts: seq<Part>)
    ensures var flags := PartFlags(parts);
      && Get(flags, FILE_PARTS) == When(FileParts(parts) > 0, Number(FileParts(parts)))
      && Get(flags, BY_BROWSER) == When(AnyCut(parts), TRUE)
      && Get(flags, ORIGINAL_SIZE) == OriginalSize(parts)
  {
    if parts != [] {
      var part := parts[|parts| - 1];
      var before := PartFlags(parts[..|parts| - 1]);
      FlagsTell(parts[..|parts| - 1]);
      AnyCutAdd(parts);
      OneMorePart(before, part, FileParts(parts));
    }
  }

  lemma OneMorePart(before: seq<Member>, part: Part, n: nat)
    ensures var counted := if part.file then Put(before, FILE_PARTS, Number(n)) else before;
      var marked := Put(counted, BY_BROWSER, TRUE);
      var flags := if !part.truncated then counted
        else if part.originalSize.Some? && Get(marked, ORIGINAL_SIZE).None?
        then Put(marked, ORIGINAL_SIZE, Number(part.originalSize.value)) else marked;
      && Get(flags, FILE_PARTS) == (if part.file then Some(Number(n)) else Get(before, FILE_PARTS))
      && Get(flags, BY_BROWSER) == (if part.truncated then Some(TRUE) else Get(before, BY_BROWSER))
      && Get(flags, ORIGINAL_SIZE)
           == if part.truncated && part.originalSize.Some? && Get(before, ORIGINAL_SIZE).None?
              then Some(Number(part.originalSize.value)) else Get(before, ORIGINAL_SIZE)
  {
    PostKeysDiffer();
    assert POST_KEYS[9] == FILE_PARTS && POST_KEYS[10] == BY_BROWSER && POST_KEYS[11] == ORIGINAL_SIZE;
    var counted := if part.file then Put(before, FILE_PARTS, Number(n)) else before;
    forall key
      ensures Get(counted, key) == if part.file && key == FILE_PARTS then Some(Number(n)) else Get(before, key)
    {
      GetPut(before, FILE_PARTS, Number(n), key);
    }
    var marked := Put(counted, BY_BROWSER, TRUE);
    forall key ensures Get(marked, key) == if key == BY_BROWSER then Some(TRUE) else Get(counted, key) {
      GetPut(counted, BY_BROWSER, TRUE, key);
    }
    if part.originalSize.Some? {
      forall key ensures Get(Put(marked, ORIGINAL_SIZE, Number(part.originalSize.value)), key)
        == if key == ORIGINAL_SIZE then Some(Number(part.originalSize.value)) else Get(marked, key)
      {
        GetPut(marked, ORIGINAL_SIZE, Number(part.originalSize.value), key);
      }
    }
  }

  /** A part of one member at most holds no other key. */
  predicate Single(part: seq<Member>, key: Text) {
    part == [] || (|part| == 1 && part[0].key == key)
  }

  lemma SingleGet(part: seq<Member>, own: Text, key: Text)
    requires Single(part, own)
    ensures Get(part, key) == if part != [] && key == own then Some(part[0].value) else None
  {
    if part != [] { assert part[1..] == []; }
  }

  /** In parts of one member each, with different keys, a key is found in its own part. */
  lemma Singles(parts: seq<seq<Member>>, keys: seq<Text>, p: nat, key: Text)
    requires |parts| == |keys| && forall i :: 0 <= i < |parts| ==> Single(parts[i], keys[i])
    requires forall i :: 0 <= i < |keys| && i != p ==> keys[i] != key
    requires p < |keys| ==> keys[p] == key
    ensures Get(Concat(parts), key) == if p < |parts| && parts[p] != [] then Some(parts[p][0].value) else None
  {
    forall i | 0 <= i < |parts|
      ensures Get(parts[i], key) == if i == p && parts[i] != [] then Some(parts[i][0].value) else None
    {
      SingleGet(parts[i], keys[i], key);
    }
    OnlyPart(parts, p, key);
  }

  lemma DroppedIsShown(mimeType: Text)
    ensures PostShows(Concat(PostParts(mimeType, Dropped)), mimeType, Dropped)
  {
    PostKeysDiffer();
    var parts, keys := PostParts(mimeType, Dropped), [MIME, BODY_DROPPED];
    assert POST_KEYS[0] == MIME && POST_KEYS[1] == TEXT && POST_KEYS[2] == PARAMS && POST_KEYS[3] == BODY_DROPPED;
    Singles(parts, keys, 0, MIME);
    Singles(parts, keys, 1, BODY_DROPPED);
    Singles(parts, keys, 2, TEXT);
    Singles(parts, keys, 2, PARAMS);
  }

  lemma ErrorIsShown(mimeType: Text, b: RequestBody)
    requires b.Errored?
    ensures PostShows(Concat(PostParts(mimeType, b)), mimeType, b)
  {
    PostKeysDiffer();
    var parts, keys := PostParts(mimeType, b), [MIME, TEXT, ERROR];
    assert POST_KEYS[0] == MIME && POST_KEYS[1] == TEXT && POST_KEYS[2] == PARAMS && POST_KEYS[3] == BODY_DROPPED;
    assert POST_KEYS[4] == ERROR;
    Singles(parts, keys, 0, MIME);
    Singles(parts, keys, 1, TEXT);
    Singles(parts, keys, 2, ERROR);
    Singles(parts, keys, 3, PARAMS);
    Singles(parts, keys, 3, BODY_DROPPED);
  }

  lemma FormIsShown(mimeType: Text, b: RequestBody)
    requires b.FormData?
    ensures PostShows(Concat(PostParts(mimeType, b)), mimeType, b)
  {
    PostKeysDiffer();
    var parts, keys := PostParts(mimeType, b), [MIME, PARAMS, FORM_DATA, COMMENT, TRUNCATED];
    assert POST_KEYS[0] == MIME && POST_KEYS[1] == TEXT && POST_KEYS[2] == PARAMS && POST_KEYS[3] == BODY_DROPPED;
    assert POST_KEYS[5] == FORM_DATA && POST_KEYS[6] == COMMENT && POST_KEYS[7] == TRUNCATED;
    Singles(parts, keys, 0, MIME);
    Singles(parts, keys, 1, PARAMS);
    Singles(parts, keys, 2, FORM_DATA);
    Singles(parts, keys, 3, COMMENT);
    Singles(parts, keys, 4, TRUNCATED);
    Singles(parts, keys, 5, TEXT);
    Singles(parts, keys, 5, BODY_DROPPED);
  }

  /** Of a raw body each key comes from its own part, the flags of the parts from the second. */
  lemma RawKey(mimeType: Text, b: RequestBody, p: nat, key: Text)
    requires b.Raw? && p != 1 && key !in {FILE_PARTS, BY_BROWSER, ORIGINAL_SIZE}
    requires forall i :: 0 <= i < 5 && i != p && i != 1 ==> [MIME, FILE_PARTS, TEXT, POST_ENCODING, TRUNCATED][i] != key
    requires p < 5 ==> [MIME, FILE_PARTS, TEXT, POST_ENCODING, TRUNCATED][p] == key
    ensures var parts := PostParts(mimeType, b);
      Get(Concat(parts), key) == if p < 5 && parts[p] != [] then Some(parts[p][0].value) else None
  {
    var parts := PostParts(mimeType, b);
    var keys := [MIME, FILE_PARTS, TEXT, POST_ENCODING, TRUNCATED];
    PartFlagsKeys(b.parts, key);
    forall i | 0 <= i < 5 && i != 1
      ensures Get(parts[i], key) == if i == p && parts[i] != [] then Some(parts[i][0].value) else None
    {
      SingleGet(parts[i], keys[i], key);
    }
    OnlyPart(parts, p, key);
  }

  lemma RawFlag(mimeType: Text, b: RequestBody, key: Text)
    requires b.Raw? && key in {FILE_PARTS, BY_BROWSER, ORIGINAL_SIZE}
    ensures Get(Concat(PostParts(mimeType, b)), key) == Get(PartFlags(b.parts), key)
  {
    PostKeysDiffer();
    var parts := PostParts(mimeType, b);
    var keys := [MIME, FILE_PARTS, TEXT, POST_ENCODING, TRUNCATED];
    assert POST_KEYS[0] == MIME && POST_KEYS[1] == TEXT && POST_KEYS[8] == POST_ENCODING && POST_KEYS[7] == TRUNCATED;
    assert POST_KEYS[9] == FILE_PARTS && POST_KEYS[10] == BY_BROWSER && POST_KEYS[11] == ORIGINAL_SIZE;
    forall i | 0 <= i < 5 && i != 1 ensures Get(parts[i], key) == None { SingleGet(parts[i], keys[i], key); }
    OnlyPart(parts, 1, key);
  }

  lemma RawIsShown(mimeType: Text, b: RequestBody)
    requires b.Raw?
    ensures PostShows(Concat(PostParts(mimeType, b)), mimeType, b)
  {
    PostKeysDiffer();
    assert POST_KEYS[0] == MIME && POST_KEYS[1] == TEXT && POST_KEYS[2] == PARAMS && POST_KEYS[3] == BODY_DROPPED;
    assert POST_KEYS[7] == TRUNCATED && POST_KEYS[8] == POST_ENCODING;
    assert POST_KEYS[9] == FILE_PARTS && POST_KEYS[10] == BY_BROWSER && POST_KEYS[11] == ORIGINAL_SIZE;
    RawKey(mimeType, b, 0, MIME);
    RawKey(mimeType, b, 2, TEXT);
    RawKey(mimeType, b, 3, POST_ENCODING);
    RawKey(mimeType, b, 4, TRUNCATED);
    RawKey(mimeType, b, 5, PARAMS);
    RawKey(mimeType, b, 5, BODY_DROPPED);
    RawFlag(mimeType, b, FILE_PARTS);
    RawFlag(mimeType, b, BY_BROWSER);
    RawFlag(mimeType, b, ORIGINAL_SIZE);
    FlagsTell(b.parts);
  }

  lemma PostIsShown(mimeType: Text, b: RequestBody)
    ensures PostShows(Concat(PostParts(mimeType, b)), mimeType, b)
  {
    match b
    case Dropped => DroppedIsShown(mimeType);
    case Errored(_) => ErrorIsShown(mimeType, b);
    case FormData(_, _, _) => FormIsShown(mimeType, b);
    case Raw(_, _, _, _) => RawIsShown(mimeType, b);
  }

  // ----- the entry, whole or emptied -----

  /** An entry shows its record, bodies included. */
  predicate EntryShows(e: HarEntry, hop: HopRecord) {
    && ContentShows(e.content, hop)
    && (e.post.Some? <==> hop.requestBody.Some?)
    && (e.post.Some? ==> PostShows(e.post.value, hop.requestType, hop.requestBody.value))
  }

  lemma EntryIsShown(hop: HopRecord)
    ensures EntryShows(Entry(hop), hop)
  {
    ContentIsShown(hop);
    if hop.requestBody.Some? { PostIsShown(hop.requestType, hop.requestBody.value); }
  }

  /** A body that is not flagged is shown as it is in the record. */
  predicate UnlessFlagged(e: HarEntry, hop: HopRecord) {
    && (!Flagged(e.content) ==> ContentShows(e.content, hop))
    && (e.post.Some? <==> hop.requestBody.Some?)
    && (e.post.Some? && !Flagged(e.post.value) ==> PostShows(e.post.value, hop.requestType, hop.requestBody.value))
  }

  /** An emptied entry flags each body it lacks, keeps the other one, and keeps all other members of the
      one it emptied. */
  lemma ShellShows(e: HarEntry, hop: HopRecord, key: Text)
    requires EntryShows(e, hop)
    ensures UnlessFlagged(Shell(e).0, hop)
    ensures key != TEXT && key != ENCODING && key != BODY_DROPPED ==>
      Get(Shell(e).0.content, key) == Get(e.content, key)
    ensures e.post.Some? && key != TEXT && key != PARAMS && key != BODY_DROPPED ==>
      Get(Shell(e).0.post.value, key) == Get(e.post.value, key)
  {
    Emptied(e.content, TEXT, ENCODING, key);
    if e.post.Some? { Emptied(e.post.value, TEXT, PARAMS, key); }
  }

  lemma Emptied(members: seq<Member>, k1: Text, k2: Text, key: Text)
    ensures var n := Put(Without(members, k1, k2), BODY_DROPPED, TRUE);
      Flagged(n) && (key != k1 && key != k2 && key != BODY_DROPPED ==> Get(n, key) == Get(members, key))
  {
    var rest := Without(members, k1, k2);
    GetPut(rest, BODY_DROPPED, TRUE, BODY_DROPPED);
    GetPut(rest, BODY_DROPPED, TRUE, key);
    GetWithout(members, k1, k2, key);
  }

  /** A budget drop is told of exactly for a response that came and could have a body: not for a redirect, a
      HEAD, a 1xx, 204 or 304 response, or one that says its length is 0. */
  lemma DropsAreTold(hop: HopRecord)
    ensures Flagged(Content(hop)) <==>
      && hop.bodyDropped && hop.status.Some? && !hop.redirected && !hop.isHead && !hop.emptyLength
      && hop.status.value !in {204, 304} && !(100 <= hop.status.value <= 199)
  {
    ContentKeys(hop);
  }
}

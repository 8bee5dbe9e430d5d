/**
 Native messaging frames (cli/internal/nativemsg/nativemsg.go): a 32-bit length in native byte
 order, then that many bytes. The streams are sequences of bytes; how many of them one call of the
 reader or the writer underneath moves is up to the environment.
 */
module Framing {
  import opened Base

  const MAX_OUTBOUND := 1024 * 1024
  const EMPTY: seq<Byte> := [0x7B, 0x7D]    // {}

  datatype Order = Little | Big

  type Size = n: nat | n < 0x1_0000_0000

  // ----- the header -----

  function Range(width: nat): nat {
    if width == 0 then 1 else 0x100 * Range(width - 1)
  }

  /** Base 256, the lowest digit first. */
  function Digits(n: nat, width: nat): (h: seq<Byte>)
    ensures |h| == width
  {
    if width == 0 then [] else [n % 0x100] + Digits(n / 0x100, width - 1)
  }

  function Number(h: seq<Byte>): (n: nat)
    ensures n < Range(|h|)
  {
    if h == [] then 0 else h[0] as int + 0x100 * Number(h[1..])
  }

  function Reversed(h: seq<Byte>): (r: seq<Byte>)
    ensures |r| == |h|
  {
    if h == [] then [] else Reversed(h[1..]) + [h[0]]
  }

  function PutUint32(n: Size, o: Order): (h: seq<Byte>)
    ensures |h| == 4
  {
    if o.Little? then Digits(n, 4) else Reversed(Digits(n, 4))
  }

  lemma RangeOfFour()
    ensures Range(4) == 0x1_0000_0000
  {
    assert Range(1) == 0x100 && Range(2) == 0x1_0000 && Range(3) == 0x100_0000;
  }

  function Uint32(h: seq<Byte>, o: Order): Size
    requires |h| == 4
  {
    RangeOfFour();
    Number(if o.Little? then h else Reversed(h))
  }

  lemma {:induction false} NumberOfDigits(n: nat, width: nat)
    requires n < Range(width)
    ensures Number(Digits(n, width)) == n
  {
    if width > 0 { NumberOfDigits(n / 0x100, width - 1); }
  }

  lemma {:induction false} DigitsOfNumber(h: seq<Byte>)
    ensures Digits(Number(h), |h|) == h
  {
    if h != [] {
      DigitsOfNumber(h[1..]);
      assert Number(h) / 0x100 == Number(h[1..]) && Number(h) % 0x100 == h[0];
    }
  }

  lemma {:induction false} ReversedAdd(h: seq<Byte>, last: Byte)
    ensures Reversed(h + [last]) == [last] + Reversed(h)
  {
    if h == [] {
      assert h + [last] == [last];
    } else {
      ReversedAdd(h[1..], last);
      assert (h + [last])[1..] == h[1..] + [last];
    }
  }

  lemma {:induction false} ReversedTwice(h: seq<Byte>)
    ensures Reversed(Reversed(h)) == h
  {
    if h != [] {
      ReversedAdd(Reversed(h[1..]), h[0]);
      ReversedTwice(h[1..]);
    }
  }

  /** The two are inverses, in either byte order. */
  lemma HeaderRoundTrip(n: Size, h: seq<Byte>, o: Order)
    requires |h| == 4
    ensures Uint32(PutUint32(n, o), o) == n
    ensures PutUint32(Uint32(h, o), o) == h
  {
    RangeOfFour();
    NumberOfDigits(n, 4);
    ReversedTwice(Digits(n, 4));
    DigitsOfNumber(h);
    DigitsOfNumber(Reversed(h));
    ReversedTwice(h);
  }

  // ----- frames and what a reader makes of them -----

  type Payload = p: seq<Byte> | |p| < 0x1_0000_0000

  function Frame(p: Payload, o: Order): (f: seq<Byte>)
    ensures |f| == 4 + |p|
  {
    PutUint32(|p|, o) + p
  }

  function Frames(ps: seq<Payload>, o: Order): seq<Byte> {
    if ps == [] then [] else Frame(ps[0], o) + Frames(ps[1..], o)
  }

  datatype Outcome =
    | Message(payload: seq<Byte>)
    | TooLarge(size: nat)
    | Eof              // on a frame boundary
    | UnexpectedEof    // within a frame

  /** What `Read` makes of a whole frame. */
  function Seen(p: Payload, limit: Size): Outcome {
    if p == [] then Message(EMPTY) else if |p| > limit then TooLarge(|p|) else Message(p)
  }

  function SeenAll(ps: seq<Payload>, limit: Size): seq<Outcome> {
    seq(|ps|, i requires 0 <= i < |ps| => Seen(ps[i], limit))
  }

  /** One `Read`, and what it leaves of the stream. */
  function ReadOne(s: seq<Byte>, limit: Size, o: Order): (r: (Outcome, seq<Byte>)) {
    if s == [] then (Eof, [])
    else if |s| < 4 then (UnexpectedEof, [])
    else
      var n := Uint32(s[..4], o);
      if n == 0 then (Message(EMPTY), s[4..])
      else if |s| - 4 < n then (UnexpectedEof, [])
      else (if n > limit then TooLarge(n) else Message(s[4..4 + n]), s[4 + n..])
  }

  /** Every `Read` up to the end of the stream. */
  function Reads(s: seq<Byte>, limit: Size, o: Order): (r: seq<Outcome>)
    ensures r != []
    decreases |s|
  {
    var (r, rest) := ReadOne(s, limit, o);
    if r.Eof? || r.UnexpectedEof? then [r] else [r] + Reads(rest, limit, o)
  }

  lemma OneFrame(p: Payload, rest: seq<Byte>, limit: Size, o: Order)
    ensures ReadOne(Frame(p, o) + rest, limit, o) == (Seen(p, limit), rest)
  {
    var s := Frame(p, o) + rest;
    assert s[..4] == PutUint32(|p|, o);
    HeaderRoundTrip(|p|, s[..4], o);
    assert s[4..4 + |p|] == p;
    assert s[4 + |p|..] == rest;
  }

  lemma ReadsFrame(p: Payload, rest: seq<Byte>, limit: Size, o: Order)
    ensures Reads(Frame(p, o) + rest, limit, o) == [Seen(p, limit)] + Reads(rest, limit, o)
  {
    OneFrame(p, rest, limit, o);
  }

  lemma SeenFirst(p: Payload, ps: seq<Payload>, limit: Size)
    ensures SeenAll([p] + ps, limit) == [Seen(p, limit)] + SeenAll(ps, limit)
  {}

  /** Frames read back one by one, an oversize one as one report of its size, and whatever follows
      them is read as it would be on its own. */
  lemma {:induction false} FramesReadBack(ps: seq<Payload>, rest: seq<Byte>, limit: Size, o: Order)
    ensures Reads(Frames(ps, o) + rest, limit, o) == SeenAll(ps, limit) + Reads(rest, limit, o)
  {
    if ps == [] {
      assert Frames(ps, o) + rest == rest;
      assert SeenAll(ps, limit) == [];
    } else {
      var tail := Frames(ps[1..], o) + rest;
      Joined(Frame(ps[0], o), Frames(ps[1..], o), rest);
      ReadsFrame(ps[0], tail, limit, o);
      FramesReadBack(ps[1..], rest, limit, o);
      SeenFirst(ps[0], ps[1..], limit);
      assert [ps[0]] + ps[1..] == ps;
      Associates(Seen(ps[0], limit), SeenAll(ps[1..], limit), Reads(rest, limit, o));
    }
  }

  lemma Associates<T>(x: T, s: seq<T>, t: seq<T>)
    ensures [x] + (s + t) == ([x] + s) + t
  {}

  /** Every stream of whole frames reads back as those frames and a clean end. */
  lemma RoundTrip(ps: seq<Payload>, limit: Size, o: Order)
    ensures Reads(Frames(ps, o), limit, o) == SeenAll(ps, limit) + [Eof]
  {
    FramesReadBack(ps, [], limit, o);
    assert Frames(ps, o) + [] == Frames(ps, o);
  }

  /** How many of the frames end at or before byte `k`. */
  function Whole(ps: seq<Payload>, k: nat): (m: nat)
    ensures m <= |ps|
  {
    if ps == [] || k < 4 + |ps[0]| then 0 else 1 + Whole(ps[1..], k - 4 - |ps[0]|)
  }

  /** A cut inside a frame is never a clean end. */
  lemma PartIsBroken(p: Payload, j: nat, limit: Size, o: Order)
    requires 0 < j < 4 + |p|
    ensures Reads(Frame(p, o)[..j], limit, o) == [UnexpectedEof]
  {
    var s := Frame(p, o)[..j];
    if j >= 4 {
      assert s[..4] == PutUint32(|p|, o);
      HeaderRoundTrip(|p|, s[..4], o);
    }
  }

  /** The bytes before a cut: whole frames, and a part of the next unless the cut is between two. */
  lemma {:induction false} CutAt(ps: seq<Payload>, k: nat, o: Order) returns (m: nat, part: seq<Byte>)
    requires k <= |Frames(ps, o)|
    ensures m == Whole(ps, k)
    ensures Frames(ps, o)[..k] == Frames(ps[..m], o) + part
    ensures part != [] ==> m < |ps| && |part| < 4 + |ps[m]| && part == Frame(ps[m], o)[..|part|]
  {
    if ps == [] || k < 4 + |ps[0]| {
      m, part := 0, Frames(ps, o)[..k];
      assert ps != [] ==> Frames(ps, o) == Frame(ps[0], o) + Frames(ps[1..], o);
    } else {
      var f, tail := Frame(ps[0], o), Frames(ps[1..], o);
      m, part := CutAt(ps[1..], k - |f|, o);
      CutAfter(f, tail, k);
      FramesFirst(ps, m + 1, o);
      Joined(f, Frames(ps[1..][..m], o), part);
      m := m + 1;
    }
  }

  lemma CutAfter(f: seq<Byte>, tail: seq<Byte>, k: nat)
    requires |f| <= k <= |f| + |tail|
    ensures (f + tail)[..k] == f + tail[..k - |f|]
  {
  }

  lemma FramesFirst(ps: seq<Payload>, m: nat, o: Order)
    requires 0 < m <= |ps|
    ensures Frames(ps[..m], o) == Frame(ps[0], o) + Frames(ps[1..][..m - 1], o)
  {
    assert ps[..m][1..] == ps[1..][..m - 1];
  }

  lemma Joined<T>(a: seq<T>, b: seq<T>, c: seq<T>)
    ensures a + (b + c) == (a + b) + c
  {
  }

  /** Wherever the stream is cut, the frames before the cut are all read, and the end is clean
      exactly when the cut is on a frame boundary. */
  lemma Truncated(ps: seq<Payload>, k: nat, limit: Size, o: Order)
    requires k <= |Frames(ps, o)|
    ensures var m := Whole(ps, k);
      Reads(Frames(ps, o)[..k], limit, o)
        == SeenAll(ps[..m], limit) + [if |Frames(ps[..m], o)| == k then Eof else UnexpectedEof]
  {
    var m, part := CutAt(ps, k, o);
    if part != [] {
      PartIsBroken(ps[m], |part|, limit, o);
      FramesReadBack(ps[..m], part, limit, o);
    } else {
      assert Frames(ps[..m], o) + [] == Frames(ps[..m], o);
      RoundTrip(ps[..m], limit, o);
    }
  }

  /** The payloads of a stream, and what is left when no whole frame is. */
  function Split(s: seq<Byte>, o: Order): (r: (seq<Payload>, seq<Byte>))
    decreases |s|
  {
    if |s| < 4 || |s| - 4 < Uint32(s[..4], o) then ([], s)
    else
      var n := Uint32(s[..4], o);
      var (ps, rest) := Split(s[4 + n..], o);
      ([s[4..4 + n]] + ps, rest)
  }

  lemma SplitFirst(s: seq<Byte>, o: Order)
    requires |s| >= 4 && |s| - 4 >= Uint32(s[..4], o)
    ensures var n := Uint32(s[..4], o); s == Frame(s[4..4 + n], o) + s[4 + n..]
  {
    HeaderRoundTrip(Uint32(s[..4], o), s[..4], o);
  }

  lemma PartReads(s: seq<Byte>, limit: Size, o: Order)
    requires |s| < 4 || |s| - 4 < Uint32(s[..4], o)
    ensures Reads(s, limit, o) == [if s == [] then Eof else UnexpectedEof]
  {}

  /** Any stream at all is whole frames and a part of one, and the reader's last word is a clean end
      exactly when that part is empty: nothing but whole frames passes for them. */
  lemma {:induction false} EveryStream(s: seq<Byte>, limit: Size, o: Order)
    ensures var (ps, rest) := Split(s, o);
      && s == Frames(ps, o) + rest
      && Reads(s, limit, o) == SeenAll(ps, limit) + [if rest == [] then Eof else UnexpectedEof]
    decreases |s|
  {
    if |s| < 4 || |s| - 4 < Uint32(s[..4], o) {
      assert Frames([], o) + s == s;
      PartReads(s, limit, o);
    } else {
      SplitFirst(s, o);
      var n := Uint32(s[..4], o);
      var p: Payload, tail := s[4..4 + n], s[4 + n..];
      EveryStream(tail, limit, o);
      ReadsFrame(p, tail, limit, o);
      var (ps, rest) := Split(tail, o);
      assert Split(s, o) == ([p] + ps, rest);
      FrameAdded(p, ps, rest, o);
      SeenFirst(p, ps, limit);
      Associates(Seen(p, limit), SeenAll(ps, limit), [if rest == [] then Eof else UnexpectedEof]);
    }
  }

  lemma FrameAdded(p: Payload, ps: seq<Payload>, rest: seq<Byte>, o: Order)
    ensures Frames([p] + ps, o) + rest == Frame(p, o) + (Frames(ps, o) + rest)
  {
    assert ([p] + ps)[1..] == ps;
    Joined(Frame(p, o), Frames(ps, o), rest);
  }

  // ----- the code -----

  class Reader {
    const limit: Size
    const order: Order
    const header: array<Byte>
    var stream: seq<Byte>     // what is still to come

    constructor (stream: seq<Byte>, limit: Size, order: Order)
      ensures this.stream == stream && this.limit == limit && this.order == order
      ensures header.Length == 4 && fresh(header)
    {
      this.stream, this.limit, this.order := stream, limit, order;
      header := new Byte[4](_ => 0);
    }

    /** `io.ReadFull`: reads of any size until the buffer is full or the stream ends. */
    method ReadFull(buf: array<Byte>) returns (n: nat)
      modifies `stream, buf
      ensures n == Min(buf.Length, |old(stream)|)
      ensures buf[..n] == old(stream)[..n] && stream == old(stream)[n..]
    {
      n := 0;
      while n < buf.Length && stream != []
        invariant n <= buf.Length && n <= |old(stream)|
        invariant stream == old(stream)[n..]
        invariant buf[..n] == old(stream)[..n]
        decreases buf.Length - n
      {
        var k: nat :| 1 <= k <= buf.Length - n && k <= |stream|;
        forall i | 0 <= i < k { buf[n + i] := stream[i]; }
        assert buf[..n + k] == old(stream)[..n + k];
        stream, n := stream[k..], n + k;
      }
    }

    /** `io.CopyN` to nowhere. */
    method Discard(length: Size) returns (r: Outcome)
      modifies `stream
      ensures |old(stream)| < length ==> r == UnexpectedEof && stream == []
      ensures |old(stream)| >= length ==> r == TooLarge(length) && stream == old(stream)[length..]
    {
      var n := 0;
      while n < length && stream != []
        invariant n <= length && n <= |old(stream)|
        invariant stream == old(stream)[n..]
      {
        var k: nat :| 1 <= k <= length - n && k <= |stream|;
        stream, n := stream[k..], n + k;
      }
      r := if n < length then UnexpectedEof else TooLarge(length);
    }

    method Read() returns (r: Outcome)
      requires header.Length == 4
      modifies this`stream, header
      ensures (r, stream) == ReadOne(old(stream), limit, order)
    {
      ghost var s := stream;
      var n := ReadFull(header);
      if n == 0 { return Eof; }
      if n < 4 { return UnexpectedEof; }
      assert header[..] == s[..4];
      var length := Uint32(header[..], order);
      if length == 0 { return Message(EMPTY); }
      if length > limit {
        r := Discard(length);
        assert |s| - 4 >= length ==> s[4..][length..] == s[4 + length..];
        return;
      }
      var payload := new Byte[length](_ => 0);
      n := ReadFull(payload);
      if n < length { return UnexpectedEof; }
      assert payload[..] == s[4..][..length] == s[4..4 + length];
      assert stream == s[4..][length..] == s[4 + length..];
      r := Message(payload[..]);
    }
  }

  datatype Write = Written | Refused(size: nat, max: nat) | Broken

  class Writer {
    const order: Order
    var out: seq<Byte>    // what the other side gets to read

    constructor (order: Order)
      ensures this.order == order && out == []
    {
      this.order, out := order, [];
    }

    /** The writer underneath: any part of the bytes gets out, with or without an error. */
    method Put(bytes: seq<Byte>) returns (n: nat, failed: bool)
      modifies `out
      ensures n <= |bytes| && out == old(out) + bytes[..n]
    {
      n :| 0 <= n <= |bytes|;
      failed := *;
      out := out + bytes[..n];
    }

    /** The part of a frame that is out after `n` more bytes of what was left of it. */
    static lemma MoreOut(out: seq<Byte>, frame: seq<Byte>, left: seq<Byte>, n: nat)
      requires |left| <= |frame| && left == frame[|frame| - |left|..] && n <= |left|
      ensures var done := |frame| - |left| + n;
        && out + frame[..|frame| - |left|] + left[..n] == out + frame[..done] == (out + frame)[..|out| + done]
        && left[n..] == frame[done..]
    {
    }

    /** `writeFull`. */
    method WriteFull(frame: seq<Byte>) returns (ok: bool)
      modifies `out
      ensures ok ==> out == old(out) + frame
      ensures |old(out)| <= |out| <= |old(out)| + |frame| && out == (old(out) + frame)[..|out|]
    {
      var left := frame;
      while |left| > 0
        invariant |left| <= |frame| && left == frame[|frame| - |left|..]
        invariant out == old(out) + frame[..|frame| - |left|]
        decreases |left|
      {
        var n, failed := Put(left);
        MoreOut(old(out), frame, left, n);
        if failed || n == 0 { return false; }
        left := left[n..];
      }
      ok := true;
    }

    /** `Write`, which holds the writer's mutex from the first byte to the last. An oversize payload
        leaves the stream as it was; a broken write leaves a part of the frame. */
    method WriteFrame(payload: seq<Byte>) returns (r: Write)
      modifies `out
      ensures r.Refused? <==> |payload| > MAX_OUTBOUND
      ensures r.Refused? ==> r == Refused(|payload|, MAX_OUTBOUND) && out == old(out)
      ensures r.Written? ==> out == old(out) + Frame(payload, order)
      ensures r.Broken? ==> |old(out)| <= |out| && out <= old(out) + Frame(payload, order)
    {
      if |payload| > MAX_OUTBOUND { return Refused(|payload|, MAX_OUTBOUND); }
      var head := PutUint32(|payload|, order);
      var frame := new Byte[4 + |payload|](_ => 0);
      forall i | 0 <= i < 4 { frame[i] := head[i]; }
      forall i | 0 <= i < |payload| { frame[4 + i] := payload[i]; }
      assert frame[..] == Frame(payload, order);
      var ok := WriteFull(frame[..]);
      r := if ok then Written else Broken;
    }
  }
}

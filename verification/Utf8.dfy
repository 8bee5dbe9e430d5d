/**
 UTF-8 lengths of JavaScript strings (extension/src/reply.ts). A string is a sequence of UTF-16
 code units, in which a surrogate may stand alone; TextEncoder writes U+FFFD for such a one.
 */
module Utf8 {
  import opened Base

  type CodeUnit = u: int | 0 <= u < 0x10000
  type Text = seq<CodeUnit>

  predicate High(u: CodeUnit) {
    0xD800 <= u <= 0xDBFF
  }

  predicate Low(u: CodeUnit) {
    0xDC00 <= u <= 0xDFFF
  }

  predicate Paired(s: Text) {
    |s| >= 2 && High(s[0]) && Low(s[1])
  }

  // ----- the encoding, section 3 of RFC 3629 -----

  type CodePoint = c: int | 0 <= c < 0x110000

  function EncodePoint(c: CodePoint): seq<Byte> {
    if c < 0x80 then [c]
    else if c < 0x800 then [0xC0 + c / 0x40, 0x80 + c % 0x40]
    else if c < 0x10000 then [0xE0 + c / 0x1000, 0x80 + c / 0x40 % 0x40, 0x80 + c % 0x40]
    else [0xF0 + c / 0x40000, 0x80 + c / 0x1000 % 0x40, 0x80 + c / 0x40 % 0x40, 0x80 + c % 0x40]
  }

  const REPLACEMENT: CodePoint := 0xFFFD

  /** The first code point of a string, and what follows it. */
  function FirstPoint(s: Text): (CodePoint, Text)
    requires s != []
  {
    if Paired(s) then
      var (high: int, low: int) := (s[0], s[1]);
      (0x10000 + (high - 0xD800) * 0x400 + (low - 0xDC00), s[2..])
    else if High(s[0]) || Low(s[0]) then (REPLACEMENT, s[1..])
    else (s[0], s[1..])
  }

  function Encode(s: Text): seq<Byte>
    decreases |s|
  {
    if s == [] then []
    else
      var (c, rest) := FirstPoint(s);
      EncodePoint(c) + Encode(rest)
  }

  // ----- the length -----

  function Length(s: Text): nat
    decreases |s|
  {
    if s == [] then 0
    else if s[0] < 0x80 then 1 + Length(s[1..])
    else if s[0] < 0x800 then 2 + Length(s[1..])
    else if Paired(s) then 4 + Length(s[2..])
    else 3 + Length(s[1..])
  }

  /** The measured length is that of the encoding, lone surrogates included. */
  lemma {:induction false} LengthIsEncoded(s: Text)
    ensures Length(s) == |Encode(s)|
    decreases |s|
  {
    if s != [] {
      LengthIsEncoded(FirstPoint(s).1);
    }
  }

  /** `utf8Length`. */
  method Utf8Length(text: Text) returns (bytes: nat)
    ensures bytes == |Encode(text)|
  {
    bytes := 0;
    var i := 0;
    while i < |text|
      invariant 0 <= i <= |text|
      invariant bytes + Length(text[i..]) == Length(text)
    {
      var unit := text[i];
      if unit < 0x80 {
        bytes := bytes + 1;
      } else if unit < 0x800 {
        bytes := bytes + 2;
      } else if High(unit) && i + 1 < |text| && Low(text[i + 1]) {
        bytes := bytes + 4;
        i := i + 1;
      } else {
        bytes := bytes + 3;
      }
      i := i + 1;
    }
    LengthIsEncoded(text);
  }

  // ----- additivity -----

  /** The cut between `a` and `b` falls inside a surrogate pair. */
  predicate SplitsPair(a: Text, b: Text) {
    a != [] && b != [] && High(a[|a| - 1]) && Low(b[0])
  }

  /** Lengths add up exactly when no surrogate pair is split. */
  lemma {:induction false} Additive(a: Text, b: Text)
    ensures Length(a + b) == Length(a) + Length(b) - (if SplitsPair(a, b) then 2 else 0)
    decreases |a|
  {
    if a == [] {
      assert a + b == b;
    } else if a[0] < 0x800 || !Paired(a + b) {
      assert (a + b)[1..] == a[1..] + b;
      Additive(a[1..], b);
      assert !Paired(a);
    } else if |a| == 1 {
      assert (a + b)[2..] == b[1..];
      assert Length(b) == 3 + Length(b[1..]);
    } else {
      assert (a + b)[2..] == a[2..] + b;
      Additive(a[2..], b);
    }
  }

  /** No surrogate stands alone. */
  predicate WellFormed(s: Text)
    decreases |s|
  {
    s == [] || (if Paired(s) then WellFormed(s[2..]) else !High(s[0]) && !Low(s[0]) && WellFormed(s[1..]))
  }

  lemma {:induction false} WellFormedAdd(a: Text, b: Text)
    requires WellFormed(a)
    ensures Length(a + b) == Length(a) + Length(b)
    ensures WellFormed(b) ==> WellFormed(a + b)
    decreases |a|
  {
    if a == [] {
      assert a + b == b;
    } else if Paired(a) {
      assert (a + b)[2..] == a[2..] + b;
      WellFormedAdd(a[2..], b);
    } else {
      assert (a + b)[1..] == a[1..] + b;
      WellFormedAdd(a[1..], b);
    }
  }

  predicate Ascii(s: Text) {
    forall i :: 0 <= i < |s| ==> s[i] < 0x80
  }

  lemma {:induction false} AsciiText(s: Text)
    requires Ascii(s)
    ensures WellFormed(s) && Length(s) == |s|
  {
    if s != [] {
      AsciiText(s[1..]);
    }
  }
}

/**
 `JSON.stringify` as a concrete serializer over UTF-16 code units, and the size its output takes
 on the wire. Strings are written the well-formed way: control characters, the quote, the
 backslash and lone surrogates are escaped, so the output never holds a lone surrogate and its
 UTF-8 length is the sum of the lengths of its parts.
 */
module Json {
  import opened Base
  import opened Utf8

  type Written = s: Text | Ascii(s) witness []

  datatype Member = Member(key: Text, value: Json)

  /** Numbers, booleans and null carry the characters they are written with. */
  datatype Json = Literal(text: Written) | Str(value: Text) | Arr(items: seq<Json>) | Obj(members: seq<Member>)

  // ----- writing -----

  const QUOTE: CodeUnit := 0x22
  const BACKSLASH: CodeUnit := 0x5C

  function Hex(n: int): CodeUnit
    requires 0 <= n < 16
  {
    if n < 10 then 0x30 + n else 0x61 + n - 10
  }

  /** `\uXXXX`, in lower case. */
  function UnicodeEscape(u: CodeUnit): (r: Text)
    ensures Ascii(r)
  {
    var n: int := u;
    [BACKSLASH, 0x75, Hex(n / 0x1000), Hex(n / 0x100 % 16), Hex(n / 0x10 % 16), Hex(n % 16)]
  }

  /** One code unit inside a string literal, when it is not the first half of a pair. */
  function EscapeUnit(u: CodeUnit): (r: Text)
    ensures WellFormed(r)
  {
    var r: Text :=
      if u == QUOTE || u == BACKSLASH then [BACKSLASH, u]
      else if u == 8 then [BACKSLASH, 0x62]
      else if u == 9 then [BACKSLASH, 0x74]
      else if u == 10 then [BACKSLASH, 0x6E]
      else if u == 12 then [BACKSLASH, 0x66]
      else if u == 13 then [BACKSLASH, 0x72]
      else if u < 0x20 || High(u) || Low(u) then UnicodeEscape(u)
      else [u];
    if Ascii(r) then AsciiText(r); r else r
  }

  function Escape(s: Text): (r: Text)
    ensures WellFormed(r)
    decreases |s|
  {
    if s == [] then []
    else if Paired(s) then
      var r := s[..2] + Escape(s[2..]);
      assert r[2..] == Escape(s[2..]);
      r
    else
      WellFormedAdd(EscapeUnit(s[0]), Escape(s[1..]));
      EscapeUnit(s[0]) + Escape(s[1..])
  }

  function Quoted(s: Text): Text {
    [QUOTE] + Escape(s) + [QUOTE]
  }

  function Print(j: Json): Text
    decreases j, 1
  {
    match j
    case Literal(text) => text
    case Str(value) => Quoted(value)
    case Arr(items) => [0x5B] + PrintItems(items) + [0x5D]
    case Obj(members) => [0x7B] + PrintMembers(members) + [0x7D]
  }

  function PrintItems(items: seq<Json>): Text
    decreases items, 0
  {
    if items == [] then []
    else if |items| == 1 then Print(items[0])
    else Print(items[0]) + [0x2C] + PrintItems(items[1..])
  }

  function PrintMember(m: Member): Text
    decreases m, 2
  {
    Quoted(m.key) + [0x3A] + Print(m.value)
  }

  function PrintMembers(members: seq<Member>): Text
    decreases members, 0
  {
    if members == [] then []
    else if |members| == 1 then PrintMember(members[0])
    else PrintMember(members[0]) + [0x2C] + PrintMembers(members[1..])
  }

  // ----- sizes -----

  function Size(j: Json): nat {
    Length(Print(j))
  }

  function ItemsSize(items: seq<Json>): nat {
    if items == [] then 0 else Size(items[0]) + (if |items| == 1 then 0 else 1) + ItemsSize(items[1..])
  }

  function MemberSize(m: Member): nat {
    Length(Quoted(m.key)) + 1 + Size(m.value)
  }

  function MembersSize(members: seq<Member>): nat {
    if members == [] then 0 else MemberSize(members[0]) + (if |members| == 1 then 0 else 1) + MembersSize(members[1..])
  }

  lemma Joined(a: Text, sep: CodeUnit, b: Text)
    requires WellFormed(a) && WellFormed(b) && sep < 0x80
    ensures WellFormed(a + [sep] + b) && Length(a + [sep] + b) == Length(a) + 1 + Length(b)
  {
    AsciiText([sep]);
    WellFormedAdd(a, [sep]);
    WellFormedAdd(a + [sep], b);
  }

  lemma Bracketed(open: CodeUnit, s: Text, close: CodeUnit)
    requires WellFormed(s) && open < 0x80 && close < 0x80
    ensures WellFormed([open] + s + [close]) && Length([open] + s + [close]) == Length(s) + 2
  {
    AsciiText([open]);
    AsciiText([close]);
    WellFormedAdd([open], s);
    WellFormedAdd([open] + s, [close]);
  }

  /** Nothing the serializer writes holds a lone surrogate. */
  lemma {:induction false} PrintWellFormed(j: Json)
    ensures WellFormed(Print(j))
    ensures j.Arr? ==> Size(j) == 2 + ItemsSize(j.items)
    ensures j.Obj? ==> Size(j) == 2 + MembersSize(j.members)
    decreases j, 1
  {
    match j
    case Literal(text) => AsciiText(text);
    case Str(value) => Bracketed(QUOTE, Escape(value), QUOTE);
    case Arr(items) =>
      PrintItemsWellFormed(items);
      Bracketed(0x5B, PrintItems(items), 0x5D);
    case Obj(members) =>
      PrintMembersWellFormed(members);
      Bracketed(0x7B, PrintMembers(members), 0x7D);
  }

  lemma {:induction false} PrintItemsWellFormed(items: seq<Json>)
    ensures WellFormed(PrintItems(items)) && Length(PrintItems(items)) == ItemsSize(items)
    decreases items, 0
  {
    if items != [] {
      PrintWellFormed(items[0]);
      if |items| > 1 {
        PrintItemsWellFormed(items[1..]);
        Joined(Print(items[0]), 0x2C, PrintItems(items[1..]));
      }
    }
  }

  lemma PrintMemberWellFormed(m: Member)
    ensures WellFormed(PrintMember(m)) && Length(PrintMember(m)) == MemberSize(m)
    decreases m, 2
  {
    Bracketed(QUOTE, Escape(m.key), QUOTE);
    PrintWellFormed(m.value);
    Joined(Quoted(m.key), 0x3A, Print(m.value));
  }

  lemma {:induction false} PrintMembersWellFormed(members: seq<Member>)
    ensures WellFormed(PrintMembers(members)) && Length(PrintMembers(members)) == MembersSize(members)
    decreases members, 0
  {
    if members != [] {
      PrintMemberWellFormed(members[0]);
      if |members| > 1 {
        PrintMembersWellFormed(members[1..]);
        Joined(PrintMember(members[0]), 0x2C, PrintMembers(members[1..]));
      }
    }
  }

  /** Replacing one item of an array changes the size by the difference of the two items. */
  lemma {:induction false} ItemReplaced(items: seq<Json>, i: nat, j: Json)
    requires i < |items|
    ensures ItemsSize(items[i := j]) == ItemsSize(items) - Size(items[i]) + Size(j)
  {
    if i == 0 {
      assert items[0 := j][1..] == items[1..];
    } else {
      assert items[i := j][1..] == items[1..][i - 1 := j];
      ItemReplaced(items[1..], i - 1, j);
    }
  }

  /** The same for the value of one member. */
  lemma {:induction false} MemberReplaced(members: seq<Member>, i: nat, value: Json)
    requires i < |members|
    ensures MembersSize(members[i := members[i].(value := value)])
        == MembersSize(members) - Size(members[i].value) + Size(value)
  {
    var m := members[i].(value := value);
    if i == 0 {
      assert members[0 := m][1..] == members[1..];
    } else {
      assert members[i := m][1..] == members[1..][i - 1 := m];
      MemberReplaced(members[1..], i - 1, value);
    }
  }

  // ----- numbers -----

  function Decimal(n: nat): (r: Text)
    ensures Ascii(r) && r != []
  {
    if n < 10 then [0x30 + n] else Decimal(n / 10) + [0x30 + n % 10]
  }

  /** A larger counter never takes fewer digits. */
  lemma {:induction false} DigitsGrow(m: nat, n: nat)
    requires m <= n
    ensures |Decimal(m)| <= |Decimal(n)|
    decreases n
  {
    if m >= 10 {
      DigitsGrow(m / 10, n / 10);
    }
  }

  function Number(n: nat): Json {
    Literal(Decimal(n))
  }

  lemma NumberSize(n: nat)
    ensures Size(Number(n)) == |Decimal(n)|
  {
    AsciiText(Decimal(n));
  }

  // ----- reading a string back -----

  function FromHex(u: CodeUnit): int {
    if 0x30 <= u < 0x3A then u as int - 0x30 else if 0x61 <= u < 0x67 then u as int - 0x61 + 10 else 0
  }

  /** The unit that one escape or one plain character stands for, and what follows it. */
  function ReadUnit(t: Text): Option<(CodeUnit, Text)>
    requires t != []
  {
    if t[0] != BACKSLASH then Some((t[0], t[1..]))
    else if |t| < 2 then None
    else if t[1] == 0x62 then Some((8, t[2..]))
    else if t[1] == 0x74 then Some((9, t[2..]))
    else if t[1] == 0x6E then Some((10, t[2..]))
    else if t[1] == 0x66 then Some((12, t[2..]))
    else if t[1] == 0x72 then Some((13, t[2..]))
    else if t[1] == 0x75 then
      if |t| < 6 then None
      else Some((FromHex(t[2]) * 0x1000 + FromHex(t[3]) * 0x100 + FromHex(t[4]) * 0x10 + FromHex(t[5]), t[6..]))
    else Some((t[1], t[2..]))
  }

  /** What is left of a string literal after its opening quote, and what follows the closing one. */
  function ReadString(t: Text): Option<(Text, Text)>
    decreases |t|
  {
    if t == [] then None
    else if t[0] == QUOTE then Some(([], t[1..]))
    else
      match ReadUnit(t)
      case None => None
      case Some((u, rest)) =>
        match ReadString(rest)
        case None => None
        case Some((s, after)) => Some(([u] + s, after))
  }

  lemma HexReadsBack(n: int)
    requires 0 <= n < 16
    ensures FromHex(Hex(n)) == n
  {}

  lemma FourDigits(n: int)
    requires 0 <= n < 0x10000
    ensures n / 0x1000 * 0x1000 + n / 0x100 % 16 * 0x100 + n / 0x10 % 16 * 0x10 + n % 16 == n
  {
    assert n / 0x100 == n / 0x1000 * 16 + n / 0x100 % 16;
    assert n / 0x10 == n / 0x100 * 16 + n / 0x10 % 16;
  }

  lemma UnitReadsBack(u: CodeUnit, rest: Text)
    ensures var t := EscapeUnit(u) + rest; t[0] != QUOTE && ReadUnit(t) == Some((u, rest))
  {
    var r, t := EscapeUnit(u), EscapeUnit(u) + rest;
    assert t[|r|..] == rest;
    if r == UnicodeEscape(u) && |r| == 6 {
      var n: int := u;
      FourDigits(n);
      HexReadsBack(n / 0x1000);
      HexReadsBack(n / 0x100 % 16);
      HexReadsBack(n / 0x10 % 16);
      HexReadsBack(n % 16);
      assert t[2] == r[2] && t[3] == r[3] && t[4] == r[4] && t[5] == r[5];
    }
  }

  lemma ReadsPlain(u: CodeUnit, tail: Text, s: Text, rest: Text)
    requires u != QUOTE && u != BACKSLASH && ReadString(tail) == Some((s, rest))
    ensures ReadString([u] + tail) == Some(([u] + s, rest))
  {
    assert ([u] + tail)[1..] == tail;
  }

  lemma ReadsEscaped(u: CodeUnit, tail: Text, s: Text, rest: Text)
    requires ReadString(tail) == Some((s, rest))
    ensures ReadString(EscapeUnit(u) + tail) == Some(([u] + s, rest))
  {
    UnitReadsBack(u, tail);
  }

  lemma EscapePair(s: Text, t: Text)
    requires Paired(s)
    ensures Escape(s) + t == [s[0]] + ([s[1]] + (Escape(s[2..]) + t))
    ensures [s[0]] + ([s[1]] + s[2..]) == s
  {
    var e := Escape(s[2..]);
    assert Escape(s) == s[..2] + e;
    TwoFirst(s[0], s[1], e, t);
    assert s[..2] == [s[0], s[1]];
  }

  lemma TwoFirst(a: CodeUnit, b: CodeUnit, e: Text, t: Text)
    ensures ([a, b] + e) + t == [a] + ([b] + (e + t))
  {}

  lemma EscapeOne(s: Text, t: Text)
    requires s != [] && !Paired(s)
    ensures Escape(s) + t == EscapeUnit(s[0]) + (Escape(s[1..]) + t)
    ensures [s[0]] + s[1..] == s
  {
    Regroup(EscapeUnit(s[0]), Escape(s[1..]), t);
  }

  lemma Regroup(a: Text, b: Text, t: Text)
    ensures (a + b) + t == a + (b + t)
  {}

  /** A string literal gives back the string it was written for, whatever follows it. */
  lemma {:induction false} StringReadsBack(s: Text, rest: Text)
    ensures ReadString(Escape(s) + ([QUOTE] + rest)) == Some((s, rest))
    decreases |s|
  {
    var end := [QUOTE] + rest;
    if s == [] {
      assert Escape(s) + end == end && end[1..] == rest;
    } else if Paired(s) {
      StringReadsBack(s[2..], rest);
      var tail := Escape(s[2..]) + end;
      ReadsPlain(s[1], tail, s[2..], rest);
      ReadsPlain(s[0], [s[1]] + tail, [s[1]] + s[2..], rest);
      EscapePair(s, end);
    } else {
      StringReadsBack(s[1..], rest);
      ReadsEscaped(s[0], Escape(s[1..]) + end, s[1..], rest);
      EscapeOne(s, end);
    }
  }

  lemma AfterQuote(e: Text, x: Text)
    ensures (([QUOTE] + e + [QUOTE]) + x)[1..] == e + ([QUOTE] + x)
  {}

  /** So two literals that start two equal texts are literals of the same string. */
  lemma QuotedIsPrefixFree(a: Text, x: Text, b: Text, y: Text)
    requires Quoted(a) + x == Quoted(b) + y
    ensures a == b && x == y
  {
    AfterQuote(Escape(a), x);
    AfterQuote(Escape(b), y);
    StringReadsBack(a, x);
    StringReadsBack(b, y);
  }
}

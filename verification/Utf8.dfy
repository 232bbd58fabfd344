/**
 What hashing makes of a text: its code units are read as code points, a lone
 surrogate as the replacement character, and the code points are written in UTF-8
 (section 3 of RFC 3629).
 */
module Utf8 {
  import opened JsonText
  import opened Wrappers

  type Byte = b: int | 0 <= b < 256
  type CodePoint = c: int | 0 <= c < 0x11_0000

  const REPLACEMENT: CodePoint := 0xFFFD

  predicate IsSurrogate(u: CodeUnit) {
    IsLead(u) || IsTrail(u)
  }

  predicate StartsPair(t: Text) {
    |t| > 1 && IsLead(t[0]) && IsTrail(t[1])
  }

  function PairValue(lead: CodeUnit, trail: CodeUnit): CodePoint
    requires IsLead(lead) && IsTrail(trail)
  {
    0x1_0000 + (lead - 0xD800) * 0x400 + (trail - 0xDC00)
  }

  function UnitValue(u: CodeUnit): CodePoint {
    if IsSurrogate(u) then REPLACEMENT else u
  }

  function CodePoints(t: Text): seq<CodePoint> {
    if t == [] then []
    else if StartsPair(t) then [PairValue(t[0], t[1])] + CodePoints(t[2..])
    else [UnitValue(t[0])] + CodePoints(t[1..])
  }

  function Encode(c: CodePoint): seq<Byte> {
    if c < 0x80 then [c]
    else if c < 0x800 then [0xC0 + c / 64, 0x80 + c % 64]
    else if c < 0x1_0000 then [0xE0 + c / 64 / 64, 0x80 + c / 64 % 64, 0x80 + c % 64]
    else [0xF0 + c / 64 / 64 / 64, 0x80 + c / 64 / 64 % 64, 0x80 + c / 64 % 64, 0x80 + c % 64]
  }

  function EncodeAll(s: seq<CodePoint>): seq<Byte> {
    if s == [] then [] else Encode(s[0]) + EncodeAll(s[1..])
  }

  function BytesOf(t: Text): seq<Byte> {
    EncodeAll(CodePoints(t))
  }

  // The bytes tell the code points.

  lemma EncodeDelimits(c: CodePoint, r: seq<Byte>, d: CodePoint, q: seq<Byte>)
    requires Encode(c) + r == Encode(d) + q
    ensures c == d && r == q
  {
    var a, b := Encode(c), Encode(d);
    assert (a + r)[0] == a[0] && (b + q)[0] == b[0];
    assert |a| == |b|;
    assert a == (a + r)[..|a|] == b;
    assert r == (a + r)[|a|..] == q;
  }

  lemma {:induction false} EncodeAllIdentifies(s: seq<CodePoint>, t: seq<CodePoint>)
    requires EncodeAll(s) == EncodeAll(t)
    ensures s == t
  {
    if s != [] && t != [] {
      EncodeDelimits(s[0], EncodeAll(s[1..]), t[0], EncodeAll(t[1..]));
      EncodeAllIdentifies(s[1..], t[1..]);
      assert s == [s[0]] + s[1..] && t == [t[0]] + t[1..];
    }
  }

  /** Two texts have the same bytes exactly if they have the same code points. */
  lemma BytesIdentifyCodePoints(s: Text, t: Text)
    ensures BytesOf(s) == BytesOf(t) <==> CodePoints(s) == CodePoints(t)
  {
    if BytesOf(s) == BytesOf(t) {
      EncodeAllIdentifies(CodePoints(s), CodePoints(t));
    }
  }

  lemma BytesRegroup(a: seq<Byte>, b: seq<Byte>, c: seq<Byte>)
    ensures (a + b) + c == a + (b + c)
  {
  }

  lemma {:induction false} EncodeAllOfTwo(s: seq<CodePoint>, t: seq<CodePoint>)
    ensures EncodeAll(s + t) == EncodeAll(s) + EncodeAll(t)
  {
    if s == [] {
      assert s + t == t;
    } else {
      EncodeAllOfTwo(s[1..], t);
      assert (s + t)[0] == s[0] && (s + t)[1..] == s[1..] + t;
      BytesRegroup(Encode(s[0]), EncodeAll(s[1..]), EncodeAll(t));
    }
  }

  // Reading the bytes, as section 3 of RFC 3629 defines it.

  predicate IsContinuation(b: Byte) {
    0x80 <= b < 0xC0
  }

  /** The number of bytes that the first byte announces. */
  function Announced(b: Byte): nat {
    if b < 0x80 then 1 else if b < 0xC0 then 0 else if b < 0xE0 then 2 else if b < 0xF0 then 3 else if b < 0xF8 then 4
        else 0
  }

  /** The smallest number that needs so many bytes. */
  function Smallest(bytes: nat): nat {
    match bytes
    case 2 => 0x80
    case 3 => 0x800
    case 4 => 0x1_0000
    case _ => 0
  }

  /** The payload bits, six a continuation byte. */
  function Payload(b: seq<Byte>, n: nat): nat
    requires 0 < n <= |b|
  {
    if n == 1 then
      b[0] - (match Announced(b[0]) case 2 => 0xC0 case 3 => 0xE0 case 4 => 0xF0 case _ => 0)
    else Payload(b, n - 1) * 64 + b[n - 1] % 64
  }

  predicate IsScalar(c: CodePoint) {
    !(0xD800 <= c < 0xE000)
  }

  /** The first code point, in its shortest form and no surrogate. */
  function DecodeOne(b: seq<Byte>): (r: Option<CodePoint>)
    requires b != []
  {
    var n := Announced(b[0]);
    if n == 0 || |b| < n || exists i :: 1 <= i < n && !IsContinuation(b[i]) then None
    else
      var c := Payload(b, n);
      if c < Smallest(n) || 0x11_0000 <= c || !IsScalar(c) then None else Some(c)
  }

  function Decode(b: seq<Byte>): Option<seq<CodePoint>>
    decreases |b|
  {
    if b == [] then Some([])
    else
      var first := DecodeOne(b);
      if first == None then None
      else
        var rest := Decode(b[Announced(b[0])..]);
        if rest == None then None else Some([first.value] + rest.value)
  }

  lemma SixBits(high: nat, low: nat)
    requires low < 64
    ensures (0x80 + low) % 64 == low && (high * 64 + low) / 64 == high && (high * 64 + low) % 64 == low
  {
  }

  lemma TwoReadBack(c: CodePoint, b: seq<Byte>)
    requires 0x80 <= c < 0x800 && Encode(c) <= b
    ensures Announced(b[0]) == 2 && Payload(b, 2) == c
  {
    SixBits(c / 64, c % 64);
    assert b[0] == Encode(c)[0] && b[1] == Encode(c)[1];
  }

  lemma ThreeReadBack(c: CodePoint, b: seq<Byte>)
    requires 0x800 <= c < 0x1_0000 && Encode(c) <= b
    ensures Announced(b[0]) == 3 && Payload(b, 3) == c
  {
    SixBits(c / 64 / 64, c / 64 % 64);
    SixBits(c / 64, c % 64);
    assert b[0] == Encode(c)[0] && b[1] == Encode(c)[1] && b[2] == Encode(c)[2];
    assert Payload(b, 2) == c / 64;
  }

  lemma FourReadBack(c: CodePoint, b: seq<Byte>)
    requires 0x1_0000 <= c && Encode(c) <= b
    ensures Announced(b[0]) == 4 && Payload(b, 4) == c
  {
    SixBits(c / 64 / 64 / 64, c / 64 / 64 % 64);
    SixBits(c / 64 / 64, c / 64 % 64);
    SixBits(c / 64, c % 64);
    assert b[0] == Encode(c)[0] && b[1] == Encode(c)[1] && b[2] == Encode(c)[2] && b[3] == Encode(c)[3];
    assert Payload(b, 2) == c / 64 / 64;
    assert Payload(b, 3) == c / 64;
  }

  lemma EncodedReadsBack(c: CodePoint, b: seq<Byte>)
    requires IsScalar(c) && Encode(c) <= b
    ensures DecodeOne(b) == Some(c) && Announced(b[0]) == |Encode(c)|
  {
    assert forall i :: 0 <= i < |Encode(c)| ==> b[i] == Encode(c)[i];
    if c < 0x80 {
      assert Payload(b, 1) == c;
    } else if c < 0x800 {
      TwoReadBack(c, b);
    } else if c < 0x1_0000 {
      ThreeReadBack(c, b);
    } else {
      FourReadBack(c, b);
    }
  }

  lemma {:induction false} AllEncodedReadsBack(s: seq<CodePoint>)
    requires forall c :: c in s ==> IsScalar(c)
    ensures Decode(EncodeAll(s)) == Some(s)
  {
    if s != [] {
      var first, rest := Encode(s[0]), EncodeAll(s[1..]);
      assert s == [s[0]] + s[1..] && IsScalar(s[0]);
      EncodedReadsBack(s[0], first + rest);
      AllEncodedReadsBack(s[1..]);
      assert (first + rest)[|first|..] == rest;
    }
  }

  lemma {:induction false} NoSurrogateIsRead(t: Text)
    ensures forall c :: c in CodePoints(t) ==> IsScalar(c)
  {
    if t != [] {
      NoSurrogateIsRead(if StartsPair(t) then t[2..] else t[1..]);
      assert IsScalar(CodePoints(t)[0]);
    }
  }

  /** The bytes of a text read back as its code points. */
  lemma BytesReadBack(t: Text)
    ensures Decode(BytesOf(t)) == Some(CodePoints(t))
  {
    NoSurrogateIsRead(t);
    AllEncodedReadsBack(CodePoints(t));
  }

  // The code points tell the text, unless a surrogate stands alone.

  /** No surrogate stands alone. */
  predicate IsWellFormed(t: Text) {
    t != [] ==> if StartsPair(t) then IsWellFormed(t[2..]) else !IsSurrogate(t[0]) && IsWellFormed(t[1..])
  }

  function Units(c: CodePoint): Text {
    if c < 0x1_0000 then [c] else [0xD800 + (c - 0x1_0000) / 0x400, 0xDC00 + (c - 0x1_0000) % 0x400]
  }

  function UnitsOfAll(s: seq<CodePoint>): Text {
    if s == [] then [] else Units(s[0]) + UnitsOfAll(s[1..])
  }

  lemma {:induction false} WellFormedTextReadsBack(t: Text)
    requires IsWellFormed(t)
    ensures UnitsOfAll(CodePoints(t)) == t
  {
    if t != [] {
      if StartsPair(t) {
        WellFormedTextReadsBack(t[2..]);
        assert Units(PairValue(t[0], t[1])) == [t[0], t[1]];
      } else {
        WellFormedTextReadsBack(t[1..]);
      }
    }
  }

  lemma {:induction false} WithoutReplacementWellFormed(t: Text)
    requires REPLACEMENT !in CodePoints(t)
    ensures IsWellFormed(t)
  {
    if t != [] {
      assert CodePoints(t)[0] != REPLACEMENT;
      WithoutReplacementWellFormed(if StartsPair(t) then t[2..] else t[1..]);
    }
  }

  /** A lone surrogate and the replacement character itself are read the same. */
  lemma {:induction false} ReplacementIsReadExactly(t: Text)
    ensures REPLACEMENT in CodePoints(t) <==> !IsWellFormed(t) || REPLACEMENT in t
  {
    if t != [] {
      if StartsPair(t) {
        ReplacementIsReadExactly(t[2..]);
        assert t == [t[0]] + ([t[1]] + t[2..]);
      } else {
        ReplacementIsReadExactly(t[1..]);
        assert t == [t[0]] + t[1..];
      }
    }
  }

  /** Another text with the same code points. */
  function Lookalike(t: Text): Text
    requires REPLACEMENT in CodePoints(t)
  {
    if StartsPair(t) then [t[0], t[1]] + Lookalike(t[2..])
    else if UnitValue(t[0]) != REPLACEMENT then [t[0]] + Lookalike(t[1..])
    else [if t[0] == REPLACEMENT then 0xDC00 else REPLACEMENT] + t[1..]
  }

  lemma {:induction false} LookalikeLooksAlike(t: Text)
    requires REPLACEMENT in CodePoints(t)
    ensures Lookalike(t) != t && CodePoints(Lookalike(t)) == CodePoints(t)
  {
    if StartsPair(t) {
      LookalikeLooksAlike(t[2..]);
      assert Lookalike(t)[2..] == Lookalike(t[2..]);
    } else {
      if UnitValue(t[0]) != REPLACEMENT {
        LookalikeLooksAlike(t[1..]);
        assert Lookalike(t)[1..] == Lookalike(t[1..]);
      } else {
        assert Lookalike(t)[1..] == t[1..];
      }
    }
  }

  /** A text shares its bytes with no other text exactly if it holds neither a lone
      surrogate nor the replacement character. */
  lemma BytesAreUnsharedExactly(t: Text)
    ensures (forall s :: BytesOf(s) == BytesOf(t) ==> s == t) <==> REPLACEMENT !in CodePoints(t)
  {
    if REPLACEMENT in CodePoints(t) {
      LookalikeLooksAlike(t);
      assert BytesOf(Lookalike(t)) == BytesOf(t);
    } else {
      forall s | BytesOf(s) == BytesOf(t)
        ensures s == t
      {
        BytesIdentifyCodePoints(s, t);
        WithoutReplacementWellFormed(s);
        WithoutReplacementWellFormed(t);
        WellFormedTextReadsBack(s);
        WellFormedTextReadsBack(t);
      }
    }
  }

  lemma WellFormedTextsAreIdentified(s: Text, t: Text)
    requires IsWellFormed(s) && IsWellFormed(t)
    ensures CodePoints(s) == CodePoints(t) <==> s == t
  {
    WellFormedTextReadsBack(s);
    WellFormedTextReadsBack(t);
  }

  // Zero units.

  lemma PointsRegroup(first: CodePoint, a: seq<CodePoint>, b: seq<CodePoint>)
    ensures [first] + (a + [0] + b) == ([first] + a) + [0] + b
  {
  }

  lemma {:induction false} CodePointsAroundZero(a: Text, b: Text)
    ensures CodePoints(a + [0] + b) == CodePoints(a) + [0] + CodePoints(b)
  {
    var t := a + [0] + b;
    if a == [] {
      assert t[1..] == b;
    } else {
      assert t[0] == a[0] && t[1] == if |a| > 1 then a[1] else 0;
      var width := if StartsPair(a) then 2 else 1;
      CodePointsAroundZero(a[width..], b);
      assert t[width..] == a[width..] + [0] + b;
      PointsRegroup(CodePoints(t)[0], CodePoints(a[width..]), CodePoints(b));
    }
  }

  lemma {:induction false} ZeroIsAUnit(t: Text, k: nat) returns (i: nat)
    requires k < |CodePoints(t)| && CodePoints(t)[k] == 0
    ensures i < |t| && t[i] == 0 && CodePoints(t[i + 1..]) == CodePoints(t)[k + 1..]
  {
    if StartsPair(t) {
      i := ZeroIsAUnit(t[2..], k - 1);
      i := i + 2;
      assert t[2..][i - 1..] == t[i + 1..];
    } else if k == 0 {
      i := 0;
    } else {
      i := ZeroIsAUnit(t[1..], k - 1);
      i := i + 1;
      assert t[1..][i..] == t[i + 1..];
    }
  }
}

/**
 The text of strings and numbers in JSON, over UTF-16 code units. `Quote`
 follows section 7 of RFC 8259 with the escapes `JSON.stringify` chooses.
 */
module JsonText {

  type CodeUnit = u: int | 0 <= u < 0x1_0000
  type Text = seq<CodeUnit>

  const QUOTE: CodeUnit := 34
  const COMMA: CodeUnit := 44
  const COLON: CodeUnit := 58
  const OPEN_BRACKET: CodeUnit := 91
  const BACKSLASH: CodeUnit := 92
  const CLOSE_BRACKET: CodeUnit := 93
  const LETTER_U: CodeUnit := 117
  const OPEN_BRACE: CodeUnit := 123
  const CLOSE_BRACE: CodeUnit := 125

  datatype ReadResult = Unreadable | Read(value: Text, rest: Text)

  predicate IsLead(u: CodeUnit) { 0xD800 <= u < 0xDC00 }

  predicate IsTrail(u: CodeUnit) { 0xDC00 <= u < 0xE000 }

  function HexDigit(n: int): (u: CodeUnit)
    requires 0 <= n < 16
  {
    if n < 10 then 48 + n else 87 + n
  }

  function HexValue(u: CodeUnit): int {
    if 48 <= u < 58 then u - 48 else if 97 <= u < 103 then u - 87 else -1
  }

  /** The letter after the backslash in a two-unit escape; 0 when there is none. */
  function ShortEscape(u: CodeUnit): CodeUnit {
    if u == QUOTE then QUOTE
    else if u == BACKSLASH then BACKSLASH
    else if u == 8 then 98
    else if u == 9 then 116
    else if u == 10 then 110
    else if u == 12 then 102
    else if u == 13 then 114
    else 0
  }

  function FromShortEscape(letter: CodeUnit): int {
    if letter == QUOTE then QUOTE
    else if letter == BACKSLASH then BACKSLASH
    else if letter == 98 then 8
    else if letter == 116 then 9
    else if letter == 110 then 10
    else if letter == 102 then 12
    else if letter == 114 then 13
    else -1
  }

  function LongEscape(u: CodeUnit): Text {
    [BACKSLASH, LETTER_U, HexDigit(u / 16 / 16 / 16), HexDigit(u / 16 / 16 % 16), HexDigit(u / 16 % 16),
        HexDigit(u % 16)]
  }

  function QuoteUnit(u: CodeUnit): Text {
    if ShortEscape(u) != 0 then [BACKSLASH, ShortEscape(u)]
    else if u < 32 || IsLead(u) || IsTrail(u) then LongEscape(u)
    else [u]
  }

  /** A surrogate pair stays as it is; a lone surrogate is escaped. */
  function QuoteBody(s: Text): Text {
    if s == [] then []
    else if |s| > 1 && IsLead(s[0]) && IsTrail(s[1]) then [s[0], s[1]] + QuoteBody(s[2..])
    else QuoteUnit(s[0]) + QuoteBody(s[1..])
  }

  function Quote(s: Text): Text {
    [QUOTE] + QuoteBody(s) + [QUOTE]
  }

  /** Reads up to the closing quote. */
  function ReadBody(t: Text): ReadResult {
    if t == [] then Unreadable
    else if t[0] == QUOTE then Read([], t[1..])
    else if t[0] != BACKSLASH then Prepend(t[0], ReadBody(t[1..]))
    else if |t| < 2 then Unreadable
    else if t[1] != LETTER_U then
      if FromShortEscape(t[1]) < 0 then Unreadable else Prepend(FromShortEscape(t[1]), ReadBody(t[2..]))
    else if |t| < 6 || HexValue(t[2]) < 0 || HexValue(t[3]) < 0 || HexValue(t[4]) < 0 || HexValue(t[5]) < 0
        then Unreadable
    else
      var u := HexValue(t[2]) * 4096 + HexValue(t[3]) * 256 + HexValue(t[4]) * 16 + HexValue(t[5]);
      if u < 0x1_0000 then Prepend(u, ReadBody(t[6..])) else Unreadable
  }

  function Prepend(u: CodeUnit, r: ReadResult): ReadResult {
    match r
    case Unreadable => Unreadable
    case Read(value, rest) => Read([u] + value, rest)
  }

  lemma ReadsLongEscape(u: CodeUnit, t: Text)
    ensures ReadBody(LongEscape(u) + t) == Prepend(u, ReadBody(t))
  {
  }

  lemma ReadsUnit(u: CodeUnit, t: Text)
    ensures ReadBody(QuoteUnit(u) + t) == Prepend(u, ReadBody(t))
  {
    if ShortEscape(u) != 0 {
      assert (QuoteUnit(u) + t)[2..] == t;
    } else if u < 32 || IsLead(u) || IsTrail(u) {
      ReadsLongEscape(u, t);
    } else {
      assert ([u] + t)[1..] == t;
    }
  }

  lemma ReadsPair(lead: CodeUnit, trail: CodeUnit, t: Text)
    requires IsLead(lead) && IsTrail(trail)
    ensures ReadBody([lead, trail] + t) == Prepend(lead, Prepend(trail, ReadBody(t)))
  {
    assert ([lead, trail] + t)[1..] == [trail] + t;
    assert ([trail] + t)[1..] == t;
  }

  lemma Regroup(a: Text, b: Text, c: Text)
    ensures (a + b) + c == a + (b + c)
  {
  }

  /** Reading the quoted text of the first unit, or of the pair that comes first. */
  lemma ReadsHead(s: Text, t: Text) returns (width: nat)
    requires s != []
    ensures 0 < width <= 2 && width <= |s|
    ensures forall value, rest :: ReadBody(QuoteBody(s[width..]) + t) == Read(value, rest) ==>
              ReadBody(QuoteBody(s) + t) == Read(s[..width] + value, rest)
  {
    if |s| > 1 && IsLead(s[0]) && IsTrail(s[1]) {
      width := 2;
      Regroup([s[0], s[1]], QuoteBody(s[2..]), t);
      ReadsPair(s[0], s[1], QuoteBody(s[2..]) + t);
      assert forall value: Text :: [s[0]] + ([s[1]] + value) == s[..2] + value;
    } else {
      width := 1;
      Regroup(QuoteUnit(s[0]), QuoteBody(s[1..]), t);
      ReadsUnit(s[0], QuoteBody(s[1..]) + t);
      assert s[..1] == [s[0]];
    }
  }

  /** Quoting loses nothing and marks its own end. */
  lemma {:induction false} QuotedTextReadsBack(s: Text, tail: Text)
    requires tail != [] && tail[0] == QUOTE
    ensures ReadBody(QuoteBody(s) + tail) == Read(s, tail[1..])
    decreases |s|
  {
    if s == [] {
      assert QuoteBody(s) + tail == tail;
    } else {
      var width := ReadsHead(s, tail);
      QuotedTextReadsBack(s[width..], tail);
      assert s == s[..width] + s[width..];
    }
  }

  lemma BodyOfQuote(s: Text, r: Text)
    ensures (Quote(s) + r)[1..] == QuoteBody(s) + ([QUOTE] + r)
  {
    Regroup([QUOTE] + QuoteBody(s), [QUOTE], r);
    Regroup([QUOTE], QuoteBody(s), [QUOTE] + r);
  }

  lemma QuoteDelimits(s: Text, r: Text, s': Text, r': Text)
    requires Quote(s) + r == Quote(s') + r'
    ensures s == s' && r == r'
  {
    BodyOfQuote(s, r);
    BodyOfQuote(s', r');
    QuotedTextReadsBack(s, [QUOTE] + r);
    QuotedTextReadsBack(s', [QUOTE] + r');
  }

  /** The text of a finite number: digits, signs, point and exponent. */
  predicate IsNumberUnit(u: CodeUnit) {
    48 <= u < 58 || u == 43 || u == 45 || u == 46 || u == 101
  }

  predicate IsNumberText(t: Text) {
    t != [] && (forall i :: 0 <= i < |t| ==> IsNumberUnit(t[i])) && t[0] != 101
  }

  function NumberPrefix(t: Text): nat {
    if t == [] || !IsNumberUnit(t[0]) then 0 else 1 + NumberPrefix(t[1..])
  }

  lemma {:induction false} NumberEndsItself(n: Text, r: Text)
    requires forall i :: 0 <= i < |n| ==> IsNumberUnit(n[i])
    requires r == [] || !IsNumberUnit(r[0])
    ensures NumberPrefix(n + r) == |n|
  {
    if n == [] {
      assert n + r == r;
    } else {
      NumberEndsItself(n[1..], r);
      assert (n + r)[1..] == n[1..] + r;
    }
  }

  // Keys are ordered by code units, as Array.prototype.sort does.

  predicate Less(a: Text, b: Text) {
    b != [] && (a == [] || a[0] < b[0] || (a[0] == b[0] && Less(a[1..], b[1..])))
  }

  lemma {:induction false} LessIsTotal(a: Text, b: Text)
    ensures a == b || Less(a, b) || Less(b, a)
  {
    if a != [] && b != [] && a[0] == b[0] {
      LessIsTotal(a[1..], b[1..]);
      assert a == [a[0]] + a[1..] && b == [b[0]] + b[1..];
    }
  }

  lemma {:induction false} LessIsTransitive(a: Text, b: Text, c: Text)
    requires Less(a, b) && Less(b, c)
    ensures Less(a, c)
  {
    if a != [] && a[0] == b[0] == c[0] {
      LessIsTransitive(a[1..], b[1..], c[1..]);
    }
  }

  lemma {:induction false} LessIsStrict(a: Text)
    ensures !Less(a, a)
  {
    if a != [] {
      LessIsStrict(a[1..]);
    }
  }
}

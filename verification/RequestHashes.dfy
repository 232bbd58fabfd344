/**
 The bytes behind request fingerprints and cache keys: which requests share a
 fingerprint, and which pairs of client id and request id share a key.
 */
module RequestHashes {
  import opened JsonText
  import opened StableJson
  import opened Utf8
  import Fingerprint

  // Canonical text has no zero unit and no lone surrogate.

  predicate IsClean(t: Text) {
    t != [] ==>
      if StartsPair(t) then IsClean(t[2..]) else t[0] != 0 && !IsSurrogate(t[0]) && IsClean(t[1..])
  }

  lemma {:induction false} CleanTextsJoin(a: Text, b: Text)
    requires IsClean(a) && IsClean(b)
    ensures IsClean(a + b)
  {
    if a == [] {
      assert a + b == b;
    } else if StartsPair(a) {
      CleanTextsJoin(a[2..], b);
      assert (a + b)[2..] == a[2..] + b;
    } else {
      CleanTextsJoin(a[1..], b);
      assert (a + b)[1..] == a[1..] + b;
    }
  }

  lemma {:induction false} CleanTextIsWellFormed(t: Text)
    requires IsClean(t)
    ensures IsWellFormed(t) && 0 !in CodePoints(t)
  {
    if t != [] {
      CleanTextIsWellFormed(if StartsPair(t) then t[2..] else t[1..]);
    }
  }

  lemma {:induction false} PlainUnitsAreClean(t: Text)
    requires forall i :: 0 <= i < |t| ==> 0 < t[i] < 0xD800
    ensures IsClean(t)
  {
    if t != [] {
      PlainUnitsAreClean(t[1..]);
    }
  }

  lemma {:induction false} QuotedTextIsClean(s: Text)
    ensures IsClean(QuoteBody(s))
  {
    if |s| > 1 && IsLead(s[0]) && IsTrail(s[1]) {
      QuotedTextIsClean(s[2..]);
      CleanTextsJoin([s[0], s[1]], QuoteBody(s[2..]));
    } else if s != [] {
      QuotedTextIsClean(s[1..]);
      QuotedUnitIsClean(s[0]);
      CleanTextsJoin(QuoteUnit(s[0]), QuoteBody(s[1..]));
    }
  }

  lemma QuotedUnitIsClean(u: CodeUnit)
    ensures IsClean(QuoteUnit(u))
  {
    if ShortEscape(u) != 0 || u < 32 || IsSurrogate(u) {
      PlainUnitsAreClean(QuoteUnit(u));
    } else {
      assert QuoteUnit(u)[1..] == [];
    }
  }

  lemma QuoteIsClean(s: Text)
    ensures IsClean(Quote(s))
  {
    QuotedTextIsClean(s);
    PlainUnitsAreClean([QUOTE]);
    CleanTextsJoin([QUOTE], QuoteBody(s));
    CleanTextsJoin([QUOTE] + QuoteBody(s), [QUOTE]);
  }

  lemma WrappedTextIsClean(open: CodeUnit, inner: Text, close: CodeUnit)
    requires 0 < open < 0xD800 && 0 < close < 0xD800 && IsClean(inner)
    ensures IsClean([open] + inner + [close])
  {
    PlainUnitsAreClean([open]);
    PlainUnitsAreClean([close]);
    CleanTextsJoin([open], inner);
    CleanTextsJoin([open] + inner, [close]);
  }

  ghost predicate AllClean(parts: seq<Text>) {
    forall i :: 0 <= i < |parts| ==> IsClean(parts[i])
  }

  lemma {:induction false} JoinIsClean(parts: seq<Text>)
    requires AllClean(parts)
    ensures IsClean(Join(parts))
  {
    if |parts| > 1 {
      JoinIsClean(parts[1..]);
      PlainUnitsAreClean([COMMA]);
      CleanTextsJoin(parts[0], [COMMA]);
      CleanTextsJoin(parts[0] + [COMMA], Join(parts[1..]));
    }
  }

  lemma ScalarIsClean(v: Json)
    requires WellFormed(v) && !v.Array? && !v.Object?
    ensures IsClean(Scalar(v))
  {
    if v.Str? {
      QuoteIsClean(v.s);
    } else {
      PlainUnitsAreClean(Scalar(v));
    }
  }

  lemma {:induction false} StableIsClean(v: Json)
    requires WellFormed(v)
    ensures IsClean(Stable(v))
    decreases v, 1
  {
    match v
    case Array(items) =>
      StableItemsAreClean(items);
      JoinIsClean(StableItems(items));
      WrappedTextIsClean(OPEN_BRACKET, Join(StableItems(items)), CLOSE_BRACKET);
    case Object(fields) =>
      var entries := StableFields(fields);
      StableFieldsAreClean(fields);
      SortSorts(entries);
      FieldTextsAreClean(Sort(entries));
      JoinIsClean(FieldTexts(Sort(entries)));
      WrappedTextIsClean(OPEN_BRACE, Join(FieldTexts(Sort(entries))), CLOSE_BRACE);
    case _ => ScalarIsClean(v);
  }

  lemma {:induction false} StableItemsAreClean(items: seq<Json>)
    requires forall i :: 0 <= i < |items| ==> WellFormed(items[i])
    ensures AllClean(StableItems(items))
    decreases items, 0
  {
    if items != [] {
      StableIsClean(items[0]);
      StableItemsAreClean(items[1..]);
    }
  }

  lemma {:induction false} StableFieldsAreClean(fields: seq<Field<Json>>)
    requires forall i :: 0 <= i < |fields| ==> WellFormed(fields[i].value)
    ensures |StableFields(fields)| == |fields|
    ensures forall i :: 0 <= i < |fields| ==> StableFields(fields)[i].key == fields[i].key
    ensures forall e :: e in StableFields(fields) ==> IsClean(e.value)
    decreases fields, 0
  {
    if fields != [] {
      StableIsClean(fields[0].value);
      StableFieldsAreClean(fields[1..]);
    }
  }

  lemma FieldTextsAreClean(entries: seq<Field<Text>>)
    requires forall e :: e in entries ==> IsClean(e.value)
    ensures AllClean(FieldTexts(entries))
  {
    forall i | 0 <= i < |entries|
      ensures IsClean(FieldTexts(entries)[i])
    {
      QuoteIsClean(entries[i].key);
      PlainUnitsAreClean([COLON]);
      CleanTextsJoin(Quote(entries[i].key), [COLON]);
      CleanTextsJoin(Quote(entries[i].key) + [COLON], entries[i].value);
    }
  }

  // What is hashed. Every part is written in UTF-8 by itself.

  function HashedBytes(first: Text, second: Text): seq<Byte> {
    BytesOf(first) + BytesOf([0]) + BytesOf(second)
  }

  lemma HashedBytesAreCodePoints(first: Text, second: Text)
    ensures HashedBytes(first, second) == EncodeAll(CodePoints(first) + [0] + CodePoints(second))
  {
    EncodeAllOfTwo(CodePoints(first), [0]);
    EncodeAllOfTwo(CodePoints(first) + [0], CodePoints(second));
    assert CodePoints([0]) == [0];
  }

  /** Two pairs of texts are hashed from the same bytes exactly if their code points,
      with a zero in between, are the same. */
  lemma HashedBytesIdentify(a: Text, b: Text, c: Text, d: Text)
    ensures HashedBytes(a, b) == HashedBytes(c, d) <==>
            CodePoints(a) + [0] + CodePoints(b) == CodePoints(c) + [0] + CodePoints(d)
  {
    HashedBytesAreCodePoints(a, b);
    HashedBytesAreCodePoints(c, d);
    if HashedBytes(a, b) == HashedBytes(c, d) {
      EncodeAllIdentifies(CodePoints(a) + [0] + CodePoints(b), CodePoints(c) + [0] + CodePoints(d));
    }
  }

  lemma ZeroSeparates(a: seq<CodePoint>, b: seq<CodePoint>, c: seq<CodePoint>, d: seq<CodePoint>)
    requires a + [0] + b == c + [0] + d && |a| == |c|
    ensures a == c && b == d
  {
    assert a == (a + [0] + b)[..|a|] && c == (c + [0] + d)[..|c|];
    assert b == (a + [0] + b)[|a| + 1..] && d == (c + [0] + d)[|c| + 1..];
  }

  lemma ZeroIsInTheLongerPart(a: seq<CodePoint>, b: seq<CodePoint>, c: seq<CodePoint>, d: seq<CodePoint>)
    requires a + [0] + b == c + [0] + d && |c| < |a|
    ensures a[|c|] == 0 && d == a[|c| + 1..] + [0] + b && 0 in d
  {
    var t := a + [0] + b;
    assert t[|c|] == (c + [0] + d)[|c|] == 0 && t[|c|] == a[|c|];
    assert d == (c + [0] + d)[|c| + 1..];
    assert t[|c| + 1..] == a[|c| + 1..] + [0] + b;
  }

  // Fingerprints.

  function FingerprintBytes(name: Text, params: Json): seq<Byte> {
    HashedBytes(name, Stable(params))
  }

  /** Two requests share the hashed bytes exactly when the methods have the same code
      points and the parameters are the same value. The method may hold zero units. */
  lemma FingerprintBytesIdentify(m: Text, p: Json, n: Text, q: Json)
    requires WellFormed(p) && WellFormed(q)
    ensures FingerprintBytes(m, p) == FingerprintBytes(n, q) <==>
            CodePoints(m) == CodePoints(n) && Same(Fingerprint.Nullified(p), Fingerprint.Nullified(q))
  {
    var a, b, c, d := CodePoints(m), CodePoints(Stable(p)), CodePoints(n), CodePoints(Stable(q));
    Fingerprint.CanonicalTextIdentifies(p, q);
    StableIsClean(p);
    StableIsClean(q);
    CleanTextIsWellFormed(Stable(p));
    CleanTextIsWellFormed(Stable(q));
    WellFormedTextsAreIdentified(Stable(p), Stable(q));
    HashedBytesIdentify(m, Stable(p), n, Stable(q));
    if a + [0] + b == c + [0] + d {
      if |c| < |a| {
        ZeroIsInTheLongerPart(a, b, c, d);
      } else if |a| < |c| {
        ZeroIsInTheLongerPart(c, d, a, b);
      }
      ZeroSeparates(a, b, c, d);
    }
  }

  // Cache keys.

  const MAX_REQUEST_ID_BYTES := 128

  /** What the server accepts as a request id. */
  predicate IsRequestId(r: Text) {
    r != [] && |BytesOf(r)| <= MAX_REQUEST_ID_BYTES
  }

  /** The hashed bytes of a cache key. */
  function RequestKeyBytes(clientId: Text, requestId: Text): seq<Byte> {
    HashedBytes(clientId, requestId)
  }

  /** No other client id and acceptable request id have the same key. */
  ghost predicate KeyIsUnshared(c: Text, r: Text) {
    forall d, s :: IsRequestId(s) && RequestKeyBytes(d, s) == RequestKeyBytes(c, r) ==> d == c && s == r
  }

  /** A zero inside the client id could be the separating one. */
  predicate ClientIdCanEndAt(c: Text, r: Text, i: nat) {
    i < |c| && c[i] == 0 && |BytesOf(c[i + 1..])| + 1 + |BytesOf(r)| <= MAX_REQUEST_ID_BYTES
  }

  /** A zero inside the request id could be the separating one. */
  predicate RequestIdCanBeginAfter(r: Text, i: nat) {
    i + 1 < |r| && r[i] == 0
  }

  predicate HasReplacement(t: Text) {
    REPLACEMENT in CodePoints(t)
  }

  lemma ZerosRegroup(a: seq<CodePoint>, b: seq<CodePoint>, c: seq<CodePoint>)
    ensures (a + [0] + b) + [0] + c == a + [0] + (b + [0] + c)
  {
  }

  /** A zero that can belong to either id merges two different pairs. */
  lemma ZeroUnitsMergeKeys(c: Text, r: Text, s: Text)
    ensures RequestKeyBytes(c + [0] + r, s) == RequestKeyBytes(c, r + [0] + s) && c + [0] + r != c
  {
    CodePointsAroundZero(c, r);
    CodePointsAroundZero(r, s);
    ZerosRegroup(CodePoints(c), CodePoints(r), CodePoints(s));
    HashedBytesIdentify(c + [0] + r, s, c, r + [0] + s);
    assert |c + [0] + r| > |c|;
  }

  lemma TextAfterZeroIsShorter(a: Text, b: Text)
    ensures |BytesOf(b)| <= |BytesOf(a + [0] + b)|
  {
    var before, after := CodePoints(a) + [0], CodePoints(b);
    CodePointsAroundZero(a, b);
    EncodeAllOfTwo(before, after);
  }

  lemma LaterRequestIdSharesTheKey(c: Text, r: Text, i: nat)
    requires IsRequestId(r) && RequestIdCanBeginAfter(r, i)
    ensures !KeyIsUnshared(c, r)
  {
    var start, s := r[..i], r[i + 1..];
    assert r == start + [0] + s;
    ZeroUnitsMergeKeys(c, start, s);
    TextAfterZeroIsShorter(start, s);
    assert IsRequestId(s) && RequestKeyBytes(c + [0] + start, s) == RequestKeyBytes(c, r) && s != r;
  }

  lemma ShorterClientIdSharesTheKey(c: Text, r: Text, i: nat)
    requires IsRequestId(r) && ClientIdCanEndAt(c, r, i)
    ensures !KeyIsUnshared(c, r)
  {
    var d, rest := c[..i], c[i + 1..];
    var s := rest + [0] + r;
    assert c == d + [0] + rest;
    ZeroUnitsMergeKeys(d, rest, r);
    CodePointsAroundZero(rest, r);
    HashedBytesAreCodePoints(rest, r);
    ZeroByte();
    assert IsRequestId(s) && RequestKeyBytes(d, s) == RequestKeyBytes(c, r) && s != r;
  }

  lemma LookalikeSharesTheKey(c: Text, r: Text)
    requires IsRequestId(r) && (HasReplacement(c) || HasReplacement(r))
    ensures !KeyIsUnshared(c, r)
  {
    if HasReplacement(c) {
      LookalikeLooksAlike(c);
      assert RequestKeyBytes(Lookalike(c), r) == RequestKeyBytes(c, r);
    } else {
      LookalikeLooksAlike(r);
      assert CodePoints(r) != [] && Lookalike(r) != [];
      assert RequestKeyBytes(c, Lookalike(r)) == RequestKeyBytes(c, r);
    }
  }

  lemma ZeroByte()
    ensures BytesOf([0]) == [0]
  {
    assert CodePoints([0]) == [0] && Encode(0) + [] == [0];
  }

  /** Only three ways lead to a shared key: a look-alike, or a zero in one of the ids
      that separates them elsewhere. */
  lemma SharedKeyHasAReason(c: Text, r: Text, d: Text, s: Text)
    requires RequestKeyBytes(d, s) == RequestKeyBytes(c, r) && !(d == c && s == r)
    ensures || HasReplacement(c) || HasReplacement(r)
            || (exists i: nat :: i < |c| && c[i] == 0 && CodePoints(s) == CodePoints(c[i + 1..]) + [0] + CodePoints(r))
            || (exists i: nat :: i < |r| && r[i] == 0 && CodePoints(s) == CodePoints(r[i + 1..]))
  {
    HashedBytesIdentify(d, s, c, r);
    var x, y, u, v := CodePoints(d), CodePoints(s), CodePoints(c), CodePoints(r);
    if |x| == |u| {
      ZeroSeparates(x, y, u, v);
      BytesAreUnsharedExactly(c);
      BytesAreUnsharedExactly(r);
      assert BytesOf(d) == BytesOf(c) && BytesOf(s) == BytesOf(r);
    } else if |x| < |u| {
      ZeroIsInTheLongerPart(u, v, x, y);
      var i := ZeroIsAUnit(c, |x|);
    } else {
      ZeroIsInTheLongerPart(x, y, u, v);
      var k := |x| - |u| - 1;
      assert v[k] == 0 && v[k + 1..] == y;
      var i := ZeroIsAUnit(r, k);
    }
  }

  lemma AcceptableSharedKeyHasAReason(c: Text, r: Text, d: Text, s: Text)
    requires IsRequestId(s) && RequestKeyBytes(d, s) == RequestKeyBytes(c, r) && !(d == c && s == r)
    requires !HasReplacement(c) && !HasReplacement(r)
    ensures (exists i: nat :: ClientIdCanEndAt(c, r, i)) || (exists i: nat :: RequestIdCanBeginAfter(r, i))
  {
    SharedKeyHasAReason(c, r, d, s);
    if i: nat :| i < |c| && c[i] == 0 && CodePoints(s) == CodePoints(c[i + 1..]) + [0] + CodePoints(r) {
      HashedBytesAreCodePoints(c[i + 1..], r);
      ZeroByte();
      assert ClientIdCanEndAt(c, r, i);
    } else {
      var i: nat :| i < |r| && r[i] == 0 && CodePoints(s) == CodePoints(r[i + 1..]);
      assert CodePoints(s) != [];
      assert RequestIdCanBeginAfter(r, i);
    }
  }

  /** A key stands for one client id and one request id exactly if neither holds a
      lone surrogate or the replacement character, no zero in the client id leaves
      room for a request id after it, and no zero in the request id is followed by
      anything. */
  lemma RequestKeyIsUnsharedExactly(c: Text, r: Text)
    requires IsRequestId(r)
    ensures KeyIsUnshared(c, r) <==>
            && !HasReplacement(c) && !HasReplacement(r)
            && (forall i: nat :: !ClientIdCanEndAt(c, r, i)) && (forall i: nat :: !RequestIdCanBeginAfter(r, i))
  {
    if HasReplacement(c) || HasReplacement(r) {
      LookalikeSharesTheKey(c, r);
    } else if i: nat :| ClientIdCanEndAt(c, r, i) {
      ShorterClientIdSharesTheKey(c, r, i);
    } else if i: nat :| RequestIdCanBeginAfter(r, i) {
      LaterRequestIdSharesTheKey(c, r, i);
    } else {
      forall d, s | IsRequestId(s) && RequestKeyBytes(d, s) == RequestKeyBytes(c, r)
        ensures d == c && s == r
      {
        if !(d == c && s == r) {
          AcceptableSharedKeyHasAReason(c, r, d, s);
        }
      }
    }
  }

  lemma SharesKeyWith(c: Text, r: Text) returns (d: Text, s: Text)
    requires 0 in c || 0 in r || HasReplacement(c) || HasReplacement(r)
    ensures RequestKeyBytes(d, s) == RequestKeyBytes(c, r) && (d != c || s != r)
  {
    d, s := c, r;
    if HasReplacement(c) {
      LookalikeLooksAlike(c);
      d := Lookalike(c);
    } else if HasReplacement(r) {
      LookalikeLooksAlike(r);
      s := Lookalike(r);
    } else if i :| 0 <= i < |c| && c[i] == 0 {
      ZeroUnitsMergeKeys(c[..i], c[i + 1..], r);
      assert c == c[..i] + [0] + c[i + 1..];
      d, s := c[..i], c[i + 1..] + [0] + r;
    } else {
      var i :| 0 <= i < |r| && r[i] == 0;
      ZeroUnitsMergeKeys(c, r[..i], r[i + 1..]);
      assert r == r[..i] + [0] + r[i + 1..];
      d, s := c + [0] + r[..i], r[i + 1..];
    }
  }

  /** Without limits on the ids: a pair has its key for itself exactly if neither id
      holds a zero, a lone surrogate or the replacement character. */
  lemma RequestKeysArePairs(c: Text, r: Text)
    ensures (forall d, s :: RequestKeyBytes(d, s) == RequestKeyBytes(c, r) ==> d == c && s == r) <==>
            0 !in c && 0 !in r && !HasReplacement(c) && !HasReplacement(r)
  {
    if 0 in c || 0 in r || HasReplacement(c) || HasReplacement(r) {
      var d, s := SharesKeyWith(c, r);
    } else {
      forall d, s | RequestKeyBytes(d, s) == RequestKeyBytes(c, r)
        ensures d == c && s == r
      {
        if !(d == c && s == r) {
          SharedKeyHasAReason(c, r, d, s);
        }
      }
    }
  }

  /** Lone surrogates merge keys without any zero: these two ids are different and
      acceptable, and share the key under every client id. */
  lemma LoneSurrogatesMergeKeys(c: Text)
    ensures var r, s: Text := [0xD800], [0xD801];
            r != s && IsRequestId(r) && IsRequestId(s) && RequestKeyBytes(c, r) == RequestKeyBytes(c, s)
  {
    var r, s: Text := [0xD800], [0xD801];
    assert CodePoints(r) == [REPLACEMENT] && CodePoints(s) == [REPLACEMENT];
    assert EncodeAll([REPLACEMENT]) == Encode(REPLACEMENT) + [];
  }
}

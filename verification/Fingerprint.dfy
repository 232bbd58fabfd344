/**
 What the canonical text of request parameters identifies: two values share it
 exactly when they are the same up to the order of object keys, once numbers that
 JSON cannot write count as null.
 */
module Fingerprint {
  import opened JsonText
  import opened StableJson

  /** What may follow a value inside a text. */
  predicate Ends(r: Text) {
    r == [] || r[0] == COMMA || r[0] == CLOSE_BRACKET || r[0] == CLOSE_BRACE
  }

  lemma SameStart(a: Text, ra: Text, b: Text, rb: Text)
    requires a + ra == b + rb && a != [] && b != []
    ensures a[0] == b[0]
  {
    assert (a + ra)[0] == a[0] && (b + rb)[0] == b[0];
  }

  lemma SameRest(a: Text, ra: Text, b: Text, rb: Text)
    requires a + ra == b + rb && |a| == |b|
    ensures a == b && ra == rb
  {
    assert a == (a + ra)[..|a|] == b;
    assert ra == (a + ra)[|a|..] == rb;
  }

  /** A printed value determines the value, and where its text ends. */
  lemma {:induction false} PlainDelimits(a: Json, ra: Text, b: Json, rb: Text)
    requires AllFinite(a) && AllFinite(b) && Ends(ra) && Ends(rb)
    requires Plain(a) + ra == Plain(b) + rb
    ensures a == b && ra == rb
    decreases a, 1
  {
    SameStart(Plain(a), ra, Plain(b), rb);
    match a
    case Null => SameRest(Plain(a), ra, Plain(b), rb);
    case Bool(_) => SameRest(Plain(a), ra, Plain(b), rb);
    case Number(n) =>
      NumberEndsItself(n.text, ra);
      NumberEndsItself(b.n.text, rb);
      SameRest(Plain(a), ra, Plain(b), rb);
    case Str(s) => QuoteDelimits(s, ra, b.s, rb);
    case Array(x) =>
      Unwrap(OPEN_BRACKET, Join(PlainItems(x)), CLOSE_BRACKET, ra);
      Unwrap(OPEN_BRACKET, Join(PlainItems(b.items)), CLOSE_BRACKET, rb);
      ItemsDelimit(x, [CLOSE_BRACKET] + ra, b.items, [CLOSE_BRACKET] + rb);
      SameRest([CLOSE_BRACKET], ra, [CLOSE_BRACKET], rb);
    case Object(x) =>
      Unwrap(OPEN_BRACE, Join(FieldTexts(PlainFields(x))), CLOSE_BRACE, ra);
      Unwrap(OPEN_BRACE, Join(FieldTexts(PlainFields(b.fields))), CLOSE_BRACE, rb);
      FieldsDelimit(x, [CLOSE_BRACE] + ra, b.fields, [CLOSE_BRACE] + rb);
      SameRest([CLOSE_BRACE], ra, [CLOSE_BRACE], rb);
  }

  lemma Unwrap(open: CodeUnit, inner: Text, close: CodeUnit, r: Text)
    ensures ([open] + inner + [close] + r)[1..] == inner + ([close] + r)
  {
  }

  function JoinTail(parts: seq<Text>, r: Text): Text {
    if parts == [] then r else [COMMA] + (Join(parts) + r)
  }

  lemma JoinSplits(parts: seq<Text>, r: Text)
    requires parts != []
    ensures Join(parts) + r == parts[0] + JoinTail(parts[1..], r)
  {
    if |parts| > 1 {
      Regroup(parts[0], [COMMA], Join(parts[1..]));
      Regroup(parts[0], [COMMA] + Join(parts[1..]), r);
      Regroup([COMMA], Join(parts[1..]), r);
    }
  }

  /** A nonempty list does not start like the end of one. */
  lemma ListDoesNotEndHere(parts: seq<Text>, r: Text, end: Text)
    requires parts != [] && parts[0] != [] && end != [] && parts[0][0] != end[0]
    ensures Join(parts) + r != end
  {
    JoinSplits(parts, r);
    assert (parts[0] + JoinTail(parts[1..], r))[0] == parts[0][0];
  }

  lemma {:induction false} ItemsDelimit(x: seq<Json>, ra: Text, y: seq<Json>, rb: Text)
    requires forall i :: 0 <= i < |x| ==> AllFinite(x[i])
    requires forall i :: 0 <= i < |y| ==> AllFinite(y[i])
    requires ra != [] && ra[0] == CLOSE_BRACKET && rb != [] && rb[0] == CLOSE_BRACKET
    requires Join(PlainItems(x)) + ra == Join(PlainItems(y)) + rb
    ensures x == y && ra == rb
    decreases x, 0
  {
    if x == [] && y == [] {
      SameRest([], ra, [], rb);
    } else if x == [] {
      ListDoesNotEndHere(PlainItems(y), rb, ra);
    } else if y == [] {
      ListDoesNotEndHere(PlainItems(x), ra, rb);
    } else {
      var px, py := PlainItems(x), PlainItems(y);
      JoinSplits(px, ra);
      JoinSplits(py, rb);
      var tx, ty := JoinTail(px[1..], ra), JoinTail(py[1..], rb);
      PlainDelimits(x[0], tx, y[0], ty);
      assert px[1..] == PlainItems(x[1..]) && py[1..] == PlainItems(y[1..]);
      if px[1..] != [] && py[1..] != [] {
        SameRest([COMMA], Join(px[1..]) + ra, [COMMA], Join(py[1..]) + rb);
        ItemsDelimit(x[1..], ra, y[1..], rb);
      }
      assert x == [x[0]] + x[1..] && y == [y[0]] + y[1..];
    }
  }

  function FieldText(key: Text, value: Text): Text {
    Quote(key) + [COLON] + value
  }

  lemma FieldDelimits(k: Text, v: Text, r: Text, k': Text, v': Text, r': Text)
    requires FieldText(k, v) + r == FieldText(k', v') + r'
    ensures k == k' && v + r == v' + r'
  {
    Regroup(Quote(k), [COLON], v);
    Regroup(Quote(k), [COLON] + v, r);
    Regroup([COLON], v, r);
    Regroup(Quote(k'), [COLON], v');
    Regroup(Quote(k'), [COLON] + v', r');
    Regroup([COLON], v', r');
    QuoteDelimits(k, [COLON] + (v + r), k', [COLON] + (v' + r'));
    SameRest([COLON], v + r, [COLON], v' + r');
  }

  lemma PrintedFields(fields: seq<Field<Json>>) returns (parts: seq<Text>)
    ensures parts == FieldTexts(PlainFields(fields)) && |parts| == |fields|
    ensures fields != [] ==> parts[0] == FieldText(fields[0].key, Plain(fields[0].value))
    ensures fields != [] ==> parts[0] != [] && parts[0][0] == QUOTE
    ensures fields != [] ==> parts[1..] == FieldTexts(PlainFields(fields[1..]))
  {
    parts := FieldTexts(PlainFields(fields));
    PlainFieldsKeepLength(fields);
  }

  lemma {:induction false} PlainFieldsKeepLength(fields: seq<Field<Json>>)
    ensures |PlainFields(fields)| == |fields|
  {
    if fields != [] { PlainFieldsKeepLength(fields[1..]); }
  }

  lemma {:induction false} FieldsDelimit(x: seq<Field<Json>>, ra: Text, y: seq<Field<Json>>, rb: Text)
    requires forall i :: 0 <= i < |x| ==> AllFinite(x[i].value)
    requires forall i :: 0 <= i < |y| ==> AllFinite(y[i].value)
    requires ra != [] && ra[0] == CLOSE_BRACE && rb != [] && rb[0] == CLOSE_BRACE
    requires Join(FieldTexts(PlainFields(x))) + ra == Join(FieldTexts(PlainFields(y))) + rb
    ensures x == y && ra == rb
    decreases x, 0
  {
    var px := PrintedFields(x);
    var py := PrintedFields(y);
    if x == [] && y == [] {
      SameRest([], ra, [], rb);
    } else if x == [] {
      ListDoesNotEndHere(py, rb, ra);
    } else if y == [] {
      ListDoesNotEndHere(px, ra, rb);
    } else {
      JoinSplits(px, ra);
      JoinSplits(py, rb);
      var tx, ty := JoinTail(px[1..], ra), JoinTail(py[1..], rb);
      FieldDelimits(x[0].key, Plain(x[0].value), tx, y[0].key, Plain(y[0].value), ty);
      PlainDelimits(x[0].value, tx, y[0].value, ty);
      if px[1..] != [] && py[1..] != [] {
        SameRest([COMMA], Join(px[1..]) + ra, [COMMA], Join(py[1..]) + rb);
        FieldsDelimit(x[1..], ra, y[1..], rb);
      }
      assert x == [x[0]] + x[1..] && y == [y[0]] + y[1..];
    }
  }

  lemma {:induction false} CanonStaysFinite(v: Json)
    requires AllFinite(v) && WellFormed(v)
    ensures AllFinite(Canon(v))
    decreases v
  {
    match v
    case Array(items) =>
      forall i | 0 <= i < |items| { CanonStaysFinite(items[i]); }
    case Object(fields) =>
      forall i | 0 <= i < |fields|
        ensures AllFinite(CanonFields(fields)[i].value)
      {
        CanonStaysFinite(fields[i].value);
      }
      SortSorts(CanonFields(fields));
      SortedEntriesComeFrom(CanonFields(fields));
    case _ =>
  }

  lemma SortedEntriesComeFrom(fields: seq<Field<Json>>)
    requires UniqueKeys(fields) && forall i :: 0 <= i < |fields| ==> AllFinite(fields[i].value)
    ensures forall i :: 0 <= i < |Sort(fields)| ==> AllFinite(Sort(fields)[i].value)
  {
    SortSorts(fields);
    forall i | 0 <= i < |Sort(fields)|
      ensures AllFinite(Sort(fields)[i].value)
    {
      assert Sort(fields)[i] in fields;
    }
  }

  lemma FiniteValuesAreIdentified(a: Json, b: Json)
    requires WellFormed(a) && WellFormed(b) && AllFinite(a) && AllFinite(b)
    ensures Stable(a) == Stable(b) <==> Same(a, b)
  {
    StableIsPlainCanon(a);
    StableIsPlainCanon(b);
    CanonicalMeansSame(a, b);
    if Stable(a) == Stable(b) {
      CanonStaysFinite(a);
      CanonStaysFinite(b);
      PlainDelimits(Canon(a), [], Canon(b), []);
    }
  }

  // Numbers JSON cannot write: a literal such as 1e400 is parsed as an infinity.

  function Nullified(v: Json): Json
    decreases v, 1
  {
    match v
    case Number(n) => if n.Finite? then v else Null
    case Array(items) => Array(NullifiedItems(items))
    case Object(fields) => Object(NullifiedFields(fields))
    case _ => v
  }

  function NullifiedItems(items: seq<Json>): (r: seq<Json>)
    ensures |r| == |items| && forall i :: 0 <= i < |r| ==> r[i] == Nullified(items[i])
    decreases items, 0
  {
    if items == [] then [] else [Nullified(items[0])] + NullifiedItems(items[1..])
  }

  function NullifiedFields(fields: seq<Field<Json>>): (r: seq<Field<Json>>)
    ensures |r| == |fields| && forall i :: 0 <= i < |r| ==> r[i] == Field(fields[i].key, Nullified(fields[i].value))
    decreases fields, 0
  {
    if fields == [] then [] else [Field(fields[0].key, Nullified(fields[0].value))] + NullifiedFields(fields[1..])
  }

  lemma {:induction false} NullifiedIsFine(v: Json)
    requires WellFormed(v)
    ensures WellFormed(Nullified(v)) && AllFinite(Nullified(v))
    decreases v
  {
    match v
    case Array(items) =>
      forall i | 0 <= i < |items| { NullifiedIsFine(items[i]); }
    case Object(fields) =>
      forall i | 0 <= i < |fields| { NullifiedIsFine(fields[i].value); }
    case _ =>
  }

  lemma {:induction false} NullifiedPrintsTheSame(v: Json)
    ensures Stable(Nullified(v)) == Stable(v)
    decreases v, 1
  {
    match v
    case Array(items) => NullifiedItemsPrintTheSame(items);
    case Object(fields) => NullifiedFieldsPrintTheSame(fields);
    case _ =>
  }

  lemma {:induction false} NullifiedItemsPrintTheSame(items: seq<Json>)
    ensures StableItems(NullifiedItems(items)) == StableItems(items)
    decreases items, 0
  {
    if items != [] {
      NullifiedPrintsTheSame(items[0]);
      NullifiedItemsPrintTheSame(items[1..]);
      assert NullifiedItems(items)[1..] == NullifiedItems(items[1..]);
    }
  }

  lemma {:induction false} NullifiedFieldsPrintTheSame(fields: seq<Field<Json>>)
    ensures StableFields(NullifiedFields(fields)) == StableFields(fields)
    decreases fields, 0
  {
    if fields != [] {
      NullifiedPrintsTheSame(fields[0].value);
      NullifiedFieldsPrintTheSame(fields[1..]);
      assert NullifiedFields(fields)[1..] == NullifiedFields(fields[1..]);
    }
  }

  /** Exactly which values share a canonical text. */
  lemma CanonicalTextIdentifies(a: Json, b: Json)
    requires WellFormed(a) && WellFormed(b)
    ensures Stable(a) == Stable(b) <==> Same(Nullified(a), Nullified(b))
  {
    NullifiedPrintsTheSame(a);
    NullifiedPrintsTheSame(b);
    NullifiedIsFine(a);
    NullifiedIsFine(b);
    FiniteValuesAreIdentified(Nullified(a), Nullified(b));
  }

  /** The text alone does not tell an infinity from null. */
  lemma InfinityLooksLikeNull()
    ensures Stable(Number(PositiveInfinity)) == Stable(Null) && !Same(Number(PositiveInfinity), Null)
  {
    assert Stable(Null) == NULL_TEXT;
  }
}

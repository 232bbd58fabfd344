/**
 The canonical JSON text behind request fingerprints, and what it identifies.

 A finite number is given by its shortest decimal text (Number::toString of
 ECMA-262), which two numbers share only when they are equal. An object is its
 list of own properties, in any order.
 */
module StableJson {
  import opened JsonText

  datatype Field<+V> = Field(key: Text, value: V)

  datatype JsNumber = Finite(text: Text) | PositiveInfinity | NegativeInfinity

  datatype Json =
    | Null
    | Bool(b: bool)
    | Number(n: JsNumber)
    | Str(s: Text)
    | Array(items: seq<Json>)
    | Object(fields: seq<Field<Json>>)

  const NULL_TEXT: Text := [110, 117, 108, 108]
  const TRUE_TEXT: Text := [116, 114, 117, 101]
  const FALSE_TEXT: Text := [102, 97, 108, 115, 101]

  function Join(parts: seq<Text>): Text {
    if parts == [] then []
    else if |parts| == 1 then parts[0]
    else parts[0] + [COMMA] + Join(parts[1..])
  }

  function FieldTexts(entries: seq<Field<Text>>): seq<Text> {
    seq(|entries|, i requires 0 <= i < |entries| => Quote(entries[i].key) + [COLON] + entries[i].value)
  }

  function Scalar(v: Json): Text
    requires !v.Array? && !v.Object?
  {
    match v
    case Null => NULL_TEXT
    case Bool(b) => if b then TRUE_TEXT else FALSE_TEXT
    case Number(n) => if n.Finite? then n.text else NULL_TEXT
    case Str(s) => Quote(s)
  }

  function Insert<V>(e: Field<V>, sorted: seq<Field<V>>): seq<Field<V>> {
    if sorted != [] && Less(sorted[0].key, e.key) then [sorted[0]] + Insert(e, sorted[1..]) else [e] + sorted
  }

  function Sort<V>(entries: seq<Field<V>>): seq<Field<V>> {
    if entries == [] then [] else Insert(entries[0], Sort(entries[1..]))
  }

  /** `stableJson`: every object is written in the order of its sorted keys. */
  function Stable(v: Json): Text
    decreases v, 1
  {
    match v
    case Array(items) => [OPEN_BRACKET] + Join(StableItems(items)) + [CLOSE_BRACKET]
    case Object(fields) => [OPEN_BRACE] + Join(FieldTexts(Sort(StableFields(fields)))) + [CLOSE_BRACE]
    case _ => Scalar(v)
  }

  function StableItems(items: seq<Json>): seq<Text>
    decreases items, 0
  {
    if items == [] then [] else [Stable(items[0])] + StableItems(items[1..])
  }

  function StableFields(fields: seq<Field<Json>>): seq<Field<Text>>
    decreases fields, 0
  {
    if fields == [] then [] else [Field(fields[0].key, Stable(fields[0].value))] + StableFields(fields[1..])
  }

  // What "the same JSON value up to key order" means.

  predicate UniqueKeys<V>(fields: seq<Field<V>>) {
    forall i, j :: 0 <= i < j < |fields| ==> fields[i].key != fields[j].key
  }

  predicate WellFormed(v: Json)
    decreases v
  {
    match v
    case Number(n) => n.Finite? ==> IsNumberText(n.text)
    case Array(items) => forall i :: 0 <= i < |items| ==> WellFormed(items[i])
    case Object(fields) => UniqueKeys(fields) && forall i :: 0 <= i < |fields| ==> WellFormed(fields[i].value)
    case _ => true
  }

  predicate AllFinite(v: Json)
    decreases v
  {
    match v
    case Number(n) => n.Finite? && IsNumberText(n.text)
    case Array(items) => forall i :: 0 <= i < |items| ==> AllFinite(items[i])
    case Object(fields) => forall i :: 0 <= i < |fields| ==> AllFinite(fields[i].value)
    case _ => true
  }

  ghost predicate Same(a: Json, b: Json)
    decreases a
  {
    match a
    case Array(x) => b.Array? && |x| == |b.items| && forall i :: 0 <= i < |x| ==> Same(x[i], b.items[i])
    case Object(x) => b.Object? && |x| == |b.fields| && forall i :: 0 <= i < |x| ==> HasSameField(x, i, b.fields)
    case _ => a == b
  }

  ghost predicate HasSameField(x: seq<Field<Json>>, i: nat, y: seq<Field<Json>>)
    requires i < |x|
    decreases x, 0
  {
    exists j :: 0 <= j < |y| && y[j].key == x[i].key && Same(x[i].value, y[j].value)
  }

  // Sorting.

  ghost predicate Sorted<V>(s: seq<Field<V>>) {
    forall i, j :: 0 <= i < j < |s| ==> Less(s[i].key, s[j].key)
  }

  lemma {:induction false} InsertSorts<V(!new)>(e: Field<V>, s: seq<Field<V>>)
    requires Sorted(s) && forall x :: x in s ==> x.key != e.key
    ensures Sorted(Insert(e, s)) && |Insert(e, s)| == |s| + 1
    ensures forall x :: x in Insert(e, s) <==> x == e || x in s
  {
    if s != [] && Less(s[0].key, e.key) {
      InsertSorts(e, s[1..]);
      assert s == [s[0]] + s[1..];
      forall x | x in Insert(e, s[1..])
        ensures Less(s[0].key, x.key)
      {
        if x != e {
          assert x in s[1..];
          var i :| 0 <= i < |s[1..]| && s[1..][i] == x;
          assert x == s[i + 1];
        }
      }
    } else if s != [] {
      assert s[0] in s;
      LessIsTotal(e.key, s[0].key);
      forall x | x in s
        ensures Less(e.key, x.key)
      {
        var i :| 0 <= i < |s| && s[i] == x;
        if i > 0 { LessIsTransitive(e.key, s[0].key, s[i].key); }
      }
    }
  }

  lemma {:induction false} SortSorts<V(!new)>(s: seq<Field<V>>)
    requires UniqueKeys(s)
    ensures Sorted(Sort(s)) && |Sort(s)| == |s|
    ensures forall x :: x in Sort(s) <==> x in s
  {
    if s != [] {
      SortSorts(s[1..]);
      assert s == [s[0]] + s[1..];
      forall x | x in Sort(s[1..])
        ensures x.key != s[0].key
      {
        assert x in s[1..];
        var i :| 0 <= i < |s[1..]| && s[1..][i] == x;
        assert x == s[i + 1];
      }
      InsertSorts(s[0], Sort(s[1..]));
    }
  }

  lemma {:induction false} SortedListsWithTheSameEntries<V(!new)>(s: seq<Field<V>>, t: seq<Field<V>>)
    requires Sorted(s) && Sorted(t) && |s| == |t|
    requires forall x :: x in s ==> x in t
    ensures s == t
  {
    if s != [] {
      assert s[0] in t;
      var k :| 0 <= k < |t| && t[k] == s[0];
      var later := s[1..];
      if k > 0 {
        var at := PlacesIn(s, t, k, |s| - 1);
        assert false;
      }
      forall x | x in later
        ensures x in t[1..]
      {
        var i :| 0 <= i < |later| && later[i] == x;
        LessIsStrict(s[0].key);
        assert Less(s[0].key, s[i + 1].key);
        assert x in t && t == [t[0]] + t[1..];
      }
      SortedListsWithTheSameEntries(s[1..], t[1..]);
      assert s == [s[0]] + s[1..] && t == [t[0]] + t[1..];
    }
  }

  /** Every entry of `s` sits in `t`, and no earlier than as far behind the first. */
  lemma {:induction false} PlacesIn<V(!new)>(s: seq<Field<V>>, t: seq<Field<V>>, k: nat, n: nat) returns (at: nat)
    requires Sorted(s) && Sorted(t) && k < |t| && n < |s| && t[k] == s[0]
    requires forall x :: x in s ==> x in t
    ensures k + n <= at < |t| && t[at] == s[n]
  {
    if n == 0 {
      at := k;
    } else {
      var before := PlacesIn(s, t, k, n - 1);
      assert s[n] in t;
      at :| 0 <= at < |t| && t[at] == s[n];
      assert Less(s[n - 1].key, s[n].key);
      if at < before {
        LessIsTransitive(s[n].key, s[n - 1].key, s[n].key);
      }
      LessIsStrict(s[n].key);
    }
  }

  // The canonical value: the same value with every object's fields sorted.

  function Canon(v: Json): Json
    decreases v, 1
  {
    match v
    case Array(items) => Array(CanonItems(items))
    case Object(fields) => Object(Sort(CanonFields(fields)))
    case _ => v
  }

  function CanonItems(items: seq<Json>): (r: seq<Json>)
    ensures |r| == |items| && forall i :: 0 <= i < |r| ==> r[i] == Canon(items[i])
    decreases items, 0
  {
    if items == [] then [] else [Canon(items[0])] + CanonItems(items[1..])
  }

  function CanonFields(fields: seq<Field<Json>>): (r: seq<Field<Json>>)
    ensures |r| == |fields| && forall i :: 0 <= i < |r| ==> r[i] == Field(fields[i].key, Canon(fields[i].value))
    decreases fields, 0
  {
    if fields == [] then [] else [Field(fields[0].key, Canon(fields[0].value))] + CanonFields(fields[1..])
  }

  lemma {:induction false} CanonicalMeansSame(a: Json, b: Json)
    requires WellFormed(a) && WellFormed(b)
    ensures Canon(a) == Canon(b) <==> Same(a, b)
    decreases a
  {
    if a.Array? && b.Array? && |a.items| == |b.items| {
      forall i | 0 <= i < |a.items|
        ensures Canon(a.items[i]) == Canon(b.items[i]) <==> Same(a.items[i], b.items[i])
      {
        CanonicalMeansSame(a.items[i], b.items[i]);
      }
      assert Canon(a) == Canon(b) ==> forall i ::
          0 <= i < |a.items| ==> CanonItems(a.items)[i] == CanonItems(b.items)[i];
    } else if a.Object? && b.Object? {
      var x, y := a.fields, b.fields;
      forall i, j | 0 <= i < |x| && 0 <= j < |y|
        ensures Canon(x[i].value) == Canon(y[j].value) <==> Same(x[i].value, y[j].value)
      {
        CanonicalMeansSame(x[i].value, y[j].value);
      }
      if Canon(a) == Canon(b) {
        EqualSortsMeanSameFields(x, y);
      }
      if Same(a, b) {
        forall i | 0 <= i < |x|
          ensures CanonFields(x)[i] in CanonFields(y)
        {
          assert HasSameField(x, i, y);
          SharedFieldIsShared(x, i, y);
        }
        SameFieldsMeanEqualSorts(x, y);
      }
    }
  }

  ghost predicate Agree(x: seq<Field<Json>>, y: seq<Field<Json>>) {
    forall i, j :: 0 <= i < |x| && 0 <= j < |y| ==>
        (Canon(x[i].value) == Canon(y[j].value) <==> Same(x[i].value, y[j].value))
  }

  lemma EqualSortsMeanSameFields(x: seq<Field<Json>>, y: seq<Field<Json>>)
    requires UniqueKeys(x) && UniqueKeys(y) && Agree(x, y)
    requires Sort(CanonFields(x)) == Sort(CanonFields(y))
    ensures |x| == |y| && forall i :: 0 <= i < |x| ==> HasSameField(x, i, y)
  {
    var cx, cy := CanonFields(x), CanonFields(y);
    SortSorts(cx);
    SortSorts(cy);
    forall i | 0 <= i < |x|
      ensures HasSameField(x, i, y)
    {
      assert cx[i] in Sort(cx);
      var j :| 0 <= j < |cy| && cy[j] == cx[i];
      assert y[j].key == x[i].key;
    }
  }

  lemma SharedFieldIsShared(x: seq<Field<Json>>, i: nat, y: seq<Field<Json>>)
    requires i < |x| && Agree(x, y) && HasSameField(x, i, y)
    ensures CanonFields(x)[i] in CanonFields(y)
  {
    var j :| 0 <= j < |y| && y[j].key == x[i].key && Same(x[i].value, y[j].value);
    assert CanonFields(y)[j] == CanonFields(x)[i];
  }

  lemma SameFieldsMeanEqualSorts(x: seq<Field<Json>>, y: seq<Field<Json>>)
    requires UniqueKeys(x) && UniqueKeys(y) && |x| == |y|
    requires forall i :: 0 <= i < |x| ==> CanonFields(x)[i] in CanonFields(y)
    ensures Sort(CanonFields(x)) == Sort(CanonFields(y))
  {
    SortsOfTheSameEntries(CanonFields(x), CanonFields(y));
  }

  lemma SortsOfTheSameEntries(x: seq<Field<Json>>, y: seq<Field<Json>>)
    requires UniqueKeys(x) && UniqueKeys(y) && |x| == |y|
    requires forall i :: 0 <= i < |x| ==> x[i] in y
    ensures Sort(x) == Sort(y)
  {
    SortSorts(x);
    SortSorts(y);
    SortedListsWithTheSameEntries(Sort(x), Sort(y));
  }

  // `Plain` is `JSON.stringify`: fields in the order they have.

  function Plain(v: Json): Text
    decreases v, 1
  {
    match v
    case Array(items) => [OPEN_BRACKET] + Join(PlainItems(items)) + [CLOSE_BRACKET]
    case Object(fields) => [OPEN_BRACE] + Join(FieldTexts(PlainFields(fields))) + [CLOSE_BRACE]
    case _ => Scalar(v)
  }

  function PlainItems(items: seq<Json>): seq<Text>
    decreases items, 0
  {
    if items == [] then [] else [Plain(items[0])] + PlainItems(items[1..])
  }

  function PlainFields(fields: seq<Field<Json>>): seq<Field<Text>>
    decreases fields, 0
  {
    if fields == [] then [] else [Field(fields[0].key, Plain(fields[0].value))] + PlainFields(fields[1..])
  }

  lemma {:induction false} InsertPlain(e: Field<Json>, s: seq<Field<Json>>)
    ensures PlainFields(Insert(e, s)) == Insert(Field(e.key, Plain(e.value)), PlainFields(s))
  {
    if s != [] && Less(s[0].key, e.key) {
      InsertPlain(e, s[1..]);
      assert ([s[0]] + Insert(e, s[1..]))[1..] == Insert(e, s[1..]);
      assert PlainFields(s)[1..] == PlainFields(s[1..]);
    } else {
      assert ([e] + s)[1..] == s;
    }
  }

  lemma {:induction false} SortPlain(s: seq<Field<Json>>)
    ensures PlainFields(Sort(s)) == Sort(PlainFields(s))
  {
    if s != [] {
      SortPlain(s[1..]);
      InsertPlain(s[0], Sort(s[1..]));
      assert PlainFields(s)[1..] == PlainFields(s[1..]);
    }
  }

  /** Writing keys in sorted order is writing the canonical value. */
  lemma {:induction false} StableIsPlainCanon(v: Json)
    ensures Stable(v) == Plain(Canon(v))
    decreases v, 1
  {
    match v
    case Array(items) => StableItemsArePlain(items);
    case Object(fields) =>
      StableFieldsArePlain(fields);
      SortPlain(CanonFields(fields));
    case _ =>
  }

  lemma {:induction false} StableItemsArePlain(items: seq<Json>)
    ensures StableItems(items) == PlainItems(CanonItems(items))
    decreases items, 0
  {
    if items != [] {
      StableIsPlainCanon(items[0]);
      StableItemsArePlain(items[1..]);
      assert CanonItems(items)[1..] == CanonItems(items[1..]);
    }
  }

  lemma {:induction false} StableFieldsArePlain(fields: seq<Field<Json>>)
    ensures StableFields(fields) == PlainFields(CanonFields(fields))
    decreases fields, 0
  {
    if fields != [] {
      StableIsPlainCanon(fields[0].value);
      StableFieldsArePlain(fields[1..]);
      assert CanonFields(fields)[1..] == CanonFields(fields[1..]);
    }
  }
}

/** Model of rust-server/src/canonical_json.rs: recursive key sorting of JSON objects. */
module CanonicalJson {
  import opened JsonValues

  /** Strict lexicographic order on keys (code-point order, as `String::cmp`). */
  predicate Below(a: string, b: string) {
    b != [] && (a == [] || a[0] < b[0] || (a[0] == b[0] && Below(a[1..], b[1..])))
  }

  lemma {:induction false} BelowTransitive(a: string, b: string, c: string)
    requires Below(a, b) && Below(b, c)
    ensures Below(a, c)
  {
    if a != [] && a[0] == b[0] && b[0] == c[0] {
      BelowTransitive(a[1..], b[1..], c[1..]);
    }
  }

  lemma {:induction false} BelowTotal(a: string, b: string)
    ensures a == b || Below(a, b) || Below(b, a)
    ensures !(Below(a, b) && Below(b, a)) && !Below(a, a)
  {
    if a != [] {
      BelowTotal(a[1..], if b == [] then [] else b[1..]);
      BelowTotal(a[1..], a[1..]);
      if b != [] && a[0] == b[0] && a[1..] == b[1..] {
        assert a == [a[0]] + a[1..] && b == [b[0]] + b[1..];
      }
    }
  }

  predicate Sorted(entries: seq<Entry>) {
    forall i, j :: 0 <= i < j < |entries| ==> Below(entries[i].key, entries[j].key)
  }

  function Insert(e: Entry, sorted: seq<Entry>): (r: seq<Entry>)
    ensures |r| == |sorted| + 1
    ensures forall x :: x in r <==> x == e || x in sorted
  {
    if sorted == [] || Below(e.key, sorted[0].key) then [e] + sorted
    else [sorted[0]] + Insert(e, sorted[1..])
  }

  function SortEntries(entries: seq<Entry>): (r: seq<Entry>)
    ensures |r| == |entries|
    ensures forall x :: x in r <==> x in entries
  {
    if entries == [] then [] else Insert(entries[0], SortEntries(entries[1..]))
  }

  /** `canonical_value`. */
  function Canonical(v: Json): Json {
    match v
    case Array(items) => Array(CanonicalItems(items))
    case Object(entries) => Object(SortEntries(CanonicalEntries(entries)))
    case _ => v
  }

  function CanonicalItems(items: seq<Json>): (r: seq<Json>)
    ensures |r| == |items|
  {
    if items == [] then [] else [Canonical(items[0])] + CanonicalItems(items[1..])
  }

  function CanonicalEntries(entries: seq<Entry>): (r: seq<Entry>)
    ensures |r| == |entries|
    ensures forall i :: 0 <= i < |r| ==> r[i].key == entries[i].key
  {
    if entries == [] then [] else
      [Entry(entries[0].key, Canonical(entries[0].value))] + CanonicalEntries(entries[1..])
  }

  /** Every object, at any depth, lists its keys in strictly increasing order. */
  predicate IsCanonical(v: Json) {
    match v
    case Array(items) => forall x :: x in items ==> IsCanonical(x)
    case Object(entries) => Sorted(entries) && forall e :: e in entries ==> IsCanonical(e.value)
    case _ => true
  }

  // ----- Sorting keeps the entries and their meaning -----

  lemma {:induction false} InsertSorts(e: Entry, sorted: seq<Entry>)
    requires Sorted(sorted) && e.key !in Keys(sorted)
    ensures Sorted(Insert(e, sorted))
  {
    if sorted == [] {
    } else if Below(e.key, sorted[0].key) {
      forall j | 0 <= j < |sorted| ensures Below(e.key, sorted[j].key) {
        if j > 0 { BelowTransitive(e.key, sorted[0].key, sorted[j].key); }
      }
    } else {
      var tail := sorted[1..];
      assert forall i :: 0 <= i < |tail| ==> tail[i] == sorted[i + 1];
      InsertSorts(e, tail);
      BelowTotal(e.key, sorted[0].key);
      assert forall x :: x in Insert(e, tail) ==> Below(sorted[0].key, x.key);
    }
  }

  lemma {:induction false} InsertMeaning(e: Entry, sorted: seq<Entry>)
    requires e.key !in Keys(sorted)
    ensures EntriesMeaning(Insert(e, sorted)) == EntriesMeaning(sorted)[e.key := MeaningOf(e.value)]
  {
    hide MeaningOf, Below;
    if sorted == [] || Below(e.key, sorted[0].key) {
      assert ([e] + sorted)[1..] == sorted;
    } else {
      InsertMeaning(e, sorted[1..]);
      assert ([sorted[0]] + Insert(e, sorted[1..]))[1..] == Insert(e, sorted[1..]);
    }
  }

  lemma {:induction false} SortSorts(entries: seq<Entry>)
    requires DistinctKeys(entries)
    ensures Sorted(SortEntries(entries))
    ensures EntriesMeaning(SortEntries(entries)) == EntriesMeaning(entries)
  {
    if entries != [] {
      var rest := entries[1..];
      SortSorts(rest);
      assert Keys(SortEntries(rest)) == Keys(rest);
      InsertSorts(entries[0], SortEntries(rest));
      InsertMeaning(entries[0], SortEntries(rest));
    }
  }

  /** Canonicalization preserves the value and produces a canonical one. */
  lemma {:induction false} CanonicalMeaning(v: Json)
    requires WellFormed(v)
    ensures MeaningOf(Canonical(v)) == MeaningOf(v) && IsCanonical(Canonical(v))
    decreases v, 1
  {
    match v {
      case Array(items) => ItemsCanonicalMeaning(items);
      case Object(entries) =>
        EntriesCanonicalMeaning(entries);
        SortSorts(CanonicalEntries(entries));
      case _ =>
    }
  }

  lemma {:induction false} ItemsCanonicalMeaning(items: seq<Json>)
    requires forall x :: x in items ==> WellFormed(x)
    ensures ItemsMeaning(CanonicalItems(items)) == ItemsMeaning(items)
    ensures forall x :: x in CanonicalItems(items) ==> IsCanonical(x)
    decreases items, 0
  {
    if items != [] {
      CanonicalMeaning(items[0]);
      ItemsCanonicalMeaning(items[1..]);
      assert CanonicalItems(items)[1..] == CanonicalItems(items[1..]);
    }
  }

  lemma {:induction false} EntriesCanonicalMeaning(entries: seq<Entry>)
    requires forall e :: e in entries ==> WellFormed(e.value)
    ensures EntriesMeaning(CanonicalEntries(entries)) == EntriesMeaning(entries)
    ensures forall e :: e in CanonicalEntries(entries) ==> IsCanonical(e.value)
    decreases entries, 0
  {
    if entries != [] {
      CanonicalMeaning(entries[0].value);
      EntriesCanonicalMeaning(entries[1..]);
      assert CanonicalEntries(entries)[1..] == CanonicalEntries(entries[1..]);
    }
  }

  // ----- A canonical value is determined by its meaning -----

  lemma {:induction false} CanonicalUnique(a: Json, b: Json)
    requires IsCanonical(a) && IsCanonical(b) && MeaningOf(a) == MeaningOf(b)
    ensures a == b
    decreases a, 1
  {
    match (a, b) {
      case (Array(x), Array(y)) => ItemsUnique(x, y);
      case (Object(x), Object(y)) => EntriesUnique(x, y);
      case _ =>
    }
  }

  lemma {:induction false} ItemsUnique(x: seq<Json>, y: seq<Json>)
    requires forall v :: v in x ==> IsCanonical(v)
    requires forall v :: v in y ==> IsCanonical(v)
    requires ItemsMeaning(x) == ItemsMeaning(y)
    ensures x == y
    decreases x, 0
  {
    assert |x| == |ItemsMeaning(x)| == |ItemsMeaning(y)| == |y|;
    if x != [] {
      assert ItemsMeaning(x)[0] == MeaningOf(x[0]) && ItemsMeaning(y)[0] == MeaningOf(y[0]);
      assert ItemsMeaning(x)[1..] == ItemsMeaning(x[1..]) && ItemsMeaning(y)[1..] == ItemsMeaning(y[1..]);
      CanonicalUnique(x[0], y[0]);
      ItemsUnique(x[1..], y[1..]);
      assert x == [x[0]] + x[1..] && y == [y[0]] + y[1..];
    }
  }

  lemma {:induction false} EntriesUnique(x: seq<Entry>, y: seq<Entry>)
    requires Sorted(x) && Sorted(y)
    requires forall e :: e in x ==> IsCanonical(e.value)
    requires forall e :: e in y ==> IsCanonical(e.value)
    requires EntriesMeaning(x) == EntriesMeaning(y)
    ensures x == y
    decreases x, 0
  {
    if x == [] {
      SameSize(x, y);
    } else {
      FirstKeysAgree(x, y);
      var k := x[0].key;
      assert EntriesMeaning(x)[k] == MeaningOf(x[0].value) && EntriesMeaning(y)[k] == MeaningOf(y[0].value);
      CanonicalUnique(x[0].value, y[0].value);
      SortedTail(x);
      SortedTail(y);
      DropFirst(x);
      DropFirst(y);
      EntriesUnique(x[1..], y[1..]);
      assert x == [x[0]] + x[1..] && y == [y[0]] + y[1..];
    }
  }

  lemma SameSize(x: seq<Entry>, y: seq<Entry>)
    requires x == [] && EntriesMeaning(x) == EntriesMeaning(y)
    ensures y == []
  {
    MeaningKeys(y);
    assert forall e :: e in y ==> e.key in Keys(y);
    assert Keys(y) == {};
  }

  lemma FirstKeysAgree(x: seq<Entry>, y: seq<Entry>)
    requires x != [] && Sorted(x) && Sorted(y) && EntriesMeaning(x) == EntriesMeaning(y)
    ensures y != [] && x[0].key == y[0].key
  {
    MeaningKeys(x);
    MeaningKeys(y);
    assert x[0].key in Keys(y);
    assert y[0].key in Keys(x);
    BelowTotal(x[0].key, y[0].key);
  }

  lemma SortedTail(x: seq<Entry>)
    requires x != [] && Sorted(x)
    ensures Sorted(x[1..]) && x[0].key !in Keys(x[1..])
  {
    forall i | 0 <= i < |x[1..]| ensures x[1..][i].key != x[0].key {
      BelowTotal(x[0].key, x[i + 1].key);
    }
  }

  lemma DropFirst(x: seq<Entry>)
    requires x != [] && x[0].key !in Keys(x[1..])
    ensures EntriesMeaning(x[1..]) == EntriesMeaning(x) - {x[0].key}
  {
    var rest := EntriesMeaning(x[1..]);
    MeaningKeys(x[1..]);
    assert x[0].key !in rest;
    assert rest[x[0].key := MeaningOf(x[0].value)] - {x[0].key} == rest;
  }

  // ----- Main results -----

  /** Two values have the same canonical form exactly when they differ only in the order of
      object entries, at any depth. */
  lemma CanonicalDecidesMeaning(a: Json, b: Json)
    requires WellFormed(a) && WellFormed(b)
    ensures Canonical(a) == Canonical(b) <==> MeaningOf(a) == MeaningOf(b)
  {
    CanonicalMeaning(a);
    CanonicalMeaning(b);
    if MeaningOf(a) == MeaningOf(b) {
      CanonicalUnique(Canonical(a), Canonical(b));
    }
  }

  lemma {:induction false} CanonicalIsWellFormed(v: Json)
    requires IsCanonical(v)
    ensures WellFormed(v)
    decreases v
  {
    match v {
      case Array(items) =>
        forall x | x in items ensures WellFormed(x) { CanonicalIsWellFormed(x); }
      case Object(entries) =>
        forall e | e in entries ensures WellFormed(e.value) { CanonicalIsWellFormed(e.value); }
        forall i, j | 0 <= i < j < |entries| ensures entries[i].key != entries[j].key {
          BelowTotal(entries[i].key, entries[j].key);
        }
      case _ =>
    }
  }

  lemma CanonicalIdempotent(v: Json)
    requires WellFormed(v)
    ensures Canonical(Canonical(v)) == Canonical(v)
  {
    CanonicalMeaning(v);
    CanonicalIsWellFormed(Canonical(v));
    CanonicalDecidesMeaning(Canonical(v), v);
  }
}

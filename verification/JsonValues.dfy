/** JSON values as `serde_json` holds them: an object is a list of entries in iteration
    order, with pairwise distinct keys. */
module JsonValues {
  import opened Wrappers

  datatype Number = Integer(i: int) | Float(r: real)

  datatype Entry = Entry(key: string, value: Json)

  datatype Json =
    | Null
    | Boolean(b: bool)
    | Num(n: Number)
    | Text(s: string)
    | Array(items: seq<Json>)
    | Object(entries: seq<Entry>)

  function Keys(entries: seq<Entry>): set<string> {
    set e | e in entries :: e.key
  }

  predicate DistinctKeys(entries: seq<Entry>) {
    forall i, j :: 0 <= i < j < |entries| ==> entries[i].key != entries[j].key
  }

  /** Every object, at any depth, has distinct keys; `serde_json::Map` guarantees this. */
  predicate WellFormed(v: Json) {
    match v
    case Array(items) => forall x :: x in items ==> WellFormed(x)
    case Object(entries) => DistinctKeys(entries) && forall e :: e in entries ==> WellFormed(e.value)
    case _ => true
  }

  /** The value itself, with objects as unordered maps. */
  datatype Meaning =
    | Scalar(v: Json)
    | List(items: seq<Meaning>)
    | Dict(fields: map<string, Meaning>)

  function MeaningOf(v: Json): Meaning {
    match v
    case Array(items) => List(ItemsMeaning(items))
    case Object(entries) => Dict(EntriesMeaning(entries))
    case _ => Scalar(v)
  }

  function ItemsMeaning(items: seq<Json>): (r: seq<Meaning>)
    ensures |r| == |items|
  {
    if items == [] then [] else [MeaningOf(items[0])] + ItemsMeaning(items[1..])
  }

  function EntriesMeaning(entries: seq<Entry>): map<string, Meaning> {
    if entries == [] then map[] else
      EntriesMeaning(entries[1..])[entries[0].key := MeaningOf(entries[0].value)]
  }

  lemma {:induction false} MeaningKeys(entries: seq<Entry>)
    ensures EntriesMeaning(entries).Keys == Keys(entries)
  {
    if entries != [] {
      MeaningKeys(entries[1..]);
      assert entries == [entries[0]] + entries[1..];
      assert Keys(entries) == {entries[0].key} + Keys(entries[1..]);
    }
  }

  function Find(entries: seq<Entry>, key: string): Option<Json> {
    if entries == [] then None
    else if entries[0].key == key then Some(entries[0].value)
    else Find(entries[1..], key)
  }

  /** `Value::get`: a member of an object, nothing for any other value. */
  function Get(v: Json, key: string): Option<Json> {
    if v.Object? then Find(v.entries, key) else None
  }

  /** `Value::as_str`. */
  function AsText(v: Option<Json>): Option<string> {
    if v.Some? && v.value.Text? then Some(v.value.s) else None
  }
}

/** Model of the agent settings in rust-server/src/game.rs: validation of a definition, recursive
    normalization of stored settings, and delivery of referenced secrets. */
module AgentSettings {
  import opened Wrappers
  import opened JsonValues

  datatype Format = Plain | Uri | Yaml

  datatype Purpose = Factory | AgentInstance

  datatype Choice = Choice(value: string, name: string)

  datatype Kind =
    | AnyJson
    | String(format: Format)
    | Bool
    | Int(minimum: Option<int>, maximum: Option<int>)
    | Real(low: Option<real>, high: Option<real>)
    | OneOf(choices: seq<Choice>)
    | Record(fields: seq<Field>)
    | SecretReference(purpose: Purpose)

  datatype Field = Field(key: string, kind: Kind, required: bool, defaultValue: Json)

  /** Text checks done by other libraries, and the rounding of an integer to a float. */
  datatype Rules = Rules(blank: string -> bool, absoluteUri: string -> bool, yamlMapping: string -> bool, toFloat: int -> real)

  predicate KeyByte(c: char) {
    'a' <= c <= 'z' || 'A' <= c <= 'Z' || '0' <= c <= '9' || c == '_' || c == '-'
  }

  predicate ValidKey(key: string) {
    1 <= |key| <= 128 && forall i :: 0 <= i < |key| ==> KeyByte(key[i])
  }

  const GAME := "game."

  predicate StartsWithGame(s: string) { GAME <= s }

  /** `trim_start_matches`: the prefix is removed as often as it occurs. */
  function TrimGame(s: string): string {
    if StartsWithGame(s) then TrimGame(s[|GAME|..]) else s
  }

  function ChildPath(path: string, key: string): string { path + "." + key }

  // ----- Specification of normalization -----

  /** The value used for a field: the supplied one, or else its default unless that is null. */
  function Supplied(field: Field, stored: seq<Entry>): Option<Json> {
    var given := Find(stored, field.key);
    if given.Some? then given
    else if field.defaultValue != Null then Some(field.defaultValue)
    else None
  }

  predicate Declared(fields: seq<Field>, key: string) {
    exists i :: 0 <= i < |fields| && fields[i].key == key
  }

  predicate OnlyDeclaredHere(fields: seq<Field>, stored: seq<Entry>) {
    forall i :: 0 <= i < |stored| ==> Declared(fields, stored[i].key)
  }

  /** The first entry with an undeclared key. */
  function FirstUndeclared(fields: seq<Field>, stored: seq<Entry>): (r: Option<string>)
    ensures r.None? <==> OnlyDeclaredHere(fields, stored)
  {
    if stored == [] then None
    else if !Declared(fields, stored[0].key) then Some(stored[0].key)
    else FirstUndeclared(fields, stored[1..])
  }

  function Insert(entries: seq<Entry>, key: string, value: Json): seq<Entry> {
    if entries == [] then [Entry(key, value)]
    else if entries[0].key == key then [Entry(key, value)] + entries[1..]
    else [entries[0]] + Insert(entries[1..], key, value)
  }

  function AsFloat(rules: Rules, v: Json): Option<real> {
    if v.Num? then Some(if v.n.Float? then v.n.r else rules.toFloat(v.n.i)) else None
  }

  const MIN_I64 := -0x8000_0000_0000_0000
  const MAX_I64 := 0x7fff_ffff_ffff_ffff

  function NormalizeValue(rules: Rules, field: Field, v: Json, path: string): Result<Json, string>
    decreases field
  {
    match field.kind
    case AnyJson => Ok(v)
    case String(format) =>
      if !v.Text? || (field.required && rules.blank(v.s)) then Err(path)
      else if format == Uri && !rules.absoluteUri(v.s) then Err(path)
      else if format == Yaml && !rules.blank(v.s) && !rules.yamlMapping(v.s) then Err(path)
      else Ok(v)
    case Bool => if v.Boolean? then Ok(v) else Err(path)
    case Int(minimum, maximum) =>
      if !(v.Num? && v.n.Integer? && MIN_I64 <= v.n.i <= MAX_I64) then Err(path)
      else if (minimum.Some? && v.n.i < minimum.value) || (maximum.Some? && v.n.i > maximum.value) then Err(path)
      else Ok(v)
    case Real(low, high) =>
      var number := AsFloat(rules, v);
      if number.None? then Err(path)
      else if (low.Some? && number.value < low.value) || (high.Some? && number.value > high.value) then Err(path)
      else Ok(Num(Float(number.value)))
    case OneOf(choices) =>
      if v.Text? && exists i :: 0 <= i < |choices| && choices[i].value == v.s then Ok(v) else Err(path)
    case Record(fields) =>
      if v.Object? then NormalizeObject(rules, fields, v.entries, path) else Err(path)
    case SecretReference(_) =>
      if v.Text? && StartsWithGame(v.s) && ValidKey(TrimGame(v.s)) then Ok(v) else Err(path)
  }

  function NormalizeObject(rules: Rules, fields: seq<Field>, stored: seq<Entry>, path: string): Result<Json, string>
    decreases fields, 1
  {
    var undeclared := FirstUndeclared(fields, stored);
    if undeclared.Some? then Err(ChildPath(path, undeclared.value)) else
      var entries :- NormalizeFields(rules, fields, stored, path);
      Ok(Object(entries))
  }

  function NormalizeFields(rules: Rules, fields: seq<Field>, stored: seq<Entry>, path: string): Result<seq<Entry>, string>
    decreases fields, 0
  {
    if fields == [] then Ok([]) else
      var entries :- NormalizeFields(rules, fields[..|fields| - 1], stored, path);
      var field := fields[|fields| - 1];
      var value := Supplied(field, stored);
      if value.Some? then
        var normal :- NormalizeValue(rules, field, value.value, ChildPath(path, field.key));
        Ok(Insert(entries, field.key, normal))
      else if field.required then Err(ChildPath(path, field.key))
      else Ok(entries)
  }

  /** `normalize_settings`. */
  function NormalizeSettings(rules: Rules, fields: seq<Field>, settings: Json): Result<Json, string> {
    if settings == Null && fields == [] then Ok(Object([]))
    else if !settings.Object? then Err("")
    else NormalizeObject(rules, fields, settings.entries, "config")
  }

  // ----- Specification of validation -----

  predicate DistinctFields(fields: seq<Field>) {
    forall i, j :: 0 <= i < j < |fields| ==> fields[i].key != fields[j].key
  }

  predicate ValidChoices(rules: Rules, choices: seq<Choice>) {
    && choices != []
    && (forall i :: 0 <= i < |choices| ==> choices[i].value != "" && !rules.blank(choices[i].name))
    && (forall i, j :: 0 <= i < j < |choices| ==> choices[i].value != choices[j].value)
  }

  predicate ValidField(rules: Rules, field: Field)
    decreases field
  {
    && ValidKey(field.key)
    && (match field.kind
        case Int(minimum, maximum) => !(minimum.Some? && maximum.Some? && minimum.value > maximum.value)
        case Real(low, high) => !(low.Some? && high.Some? && low.value > high.value)
        case OneOf(choices) => ValidChoices(rules, choices)
        case Record(fields) => ValidFields(rules, fields)
        case _ => true)
    && (field.defaultValue != Null ==> NormalizeValue(rules, field, field.defaultValue, "").Ok?)
  }

  predicate ValidFields(rules: Rules, fields: seq<Field>)
    decreases fields
  {
    DistinctFields(fields) && forall i :: 0 <= i < |fields| ==> ValidField(rules, fields[i])
  }

  // ----- The code -----

  /** `normalize_object`. */
  method NormalizeStored(rules: Rules, fields: seq<Field>, stored: seq<Entry>, path: string) returns (r: Result<Json, string>)
    ensures r == NormalizeObject(rules, fields, stored, path)
    decreases fields, 1
  {
    var k := 0;
    while k < |stored|
      invariant 0 <= k <= |stored|
      invariant FirstUndeclared(fields, stored) == FirstUndeclared(fields, stored[k..])
    {
      assert stored[k..][1..] == stored[k + 1..];
      if !Declared(fields, stored[k].key) { return Err(ChildPath(path, stored[k].key)); }
      k := k + 1;
    }
    var normalized: seq<Entry> := [];
    var i := 0;
    while i < |fields|
      invariant 0 <= i <= |fields|
      invariant NormalizeFields(rules, fields[..i], stored, path) == Ok(normalized)
    {
      var field := fields[i];
      assert fields[..i + 1][..i] == fields[..i];
      var value := Supplied(field, stored);
      if value.Some? {
        var normal := NormalizeSupplied(rules, field, value.value, ChildPath(path, field.key));
        if normal.Err? {
          FirstErrorStays(rules, fields, stored, path, i + 1);
          return Err(normal.error);
        }
        normalized := Insert(normalized, field.key, normal.value);
      } else if field.required {
        FirstErrorStays(rules, fields, stored, path, i + 1);
        return Err(ChildPath(path, field.key));
      }
      i := i + 1;
    }
    assert fields[..i] == fields;
    r := Ok(Object(normalized));
  }

  /** `normalize_value`. */
  method NormalizeSupplied(rules: Rules, field: Field, v: Json, path: string) returns (r: Result<Json, string>)
    ensures r == NormalizeValue(rules, field, v, path)
    decreases field, 0
  {
    r := Ok(v);
    match field.kind {
      case AnyJson =>
      case String(format) =>
        if !v.Text? { return Err(path); }
        if field.required && rules.blank(v.s) { return Err(path); }
        match format {
          case Uri => if !rules.absoluteUri(v.s) { return Err(path); }
          case Yaml => if !rules.blank(v.s) && !rules.yamlMapping(v.s) { return Err(path); }
          case Plain =>
        }
      case Bool =>
        if !v.Boolean? { return Err(path); }
      case Int(minimum, maximum) =>
        if !(v.Num? && v.n.Integer? && MIN_I64 <= v.n.i <= MAX_I64) { return Err(path); }
        if minimum.Some? && v.n.i < minimum.value { return Err(path); }
        if maximum.Some? && v.n.i > maximum.value { return Err(path); }
      case Real(low, high) =>
        var number := AsFloat(rules, v);
        if number.None? { return Err(path); }
        if low.Some? && number.value < low.value { return Err(path); }
        if high.Some? && number.value > high.value { return Err(path); }
        r := Ok(Num(Float(number.value)));
      case OneOf(choices) =>
        if !v.Text? || !exists i :: 0 <= i < |choices| && choices[i].value == v.s { return Err(path); }
      case Record(fields) =>
        if !v.Object? { return Err(path); }
        r := NormalizeStored(rules, fields, v.entries, path);
      case SecretReference(_) =>
        if !v.Text? || !StartsWithGame(v.s) || !ValidKey(TrimGame(v.s)) { return Err(path); }
    }
  }

  // ----- Which values are accepted -----

  predicate WithinBounds<T>(x: T, minimum: Option<T>, maximum: Option<T>, atMost: (T, T) -> bool) {
    (minimum.Some? ==> atMost(minimum.value, x)) && (maximum.Some? ==> atMost(x, maximum.value))
  }

  /** The value fits the field: a record has only declared keys, supplies every required field or finds a
      default for it, and fits in all its fields. */
  predicate Conforms(rules: Rules, field: Field, v: Json)
    decreases field, 0
  {
    match field.kind
    case AnyJson => true
    case Bool => v.Boolean?
    case Int(minimum, maximum) =>
      && v.Num? && v.n.Integer? && MIN_I64 <= v.n.i <= MAX_I64
      && WithinBounds(v.n.i, minimum, maximum, (a: int, b: int) => a <= b)
    case Real(low, high) =>
      && v.Num?
      && WithinBounds(if v.n.Float? then v.n.r else rules.toFloat(v.n.i), low, high, (a: real, b: real) => a <= b)
    case String(format) =>
      && v.Text? && (field.required ==> !rules.blank(v.s))
      && (format == Uri ==> rules.absoluteUri(v.s))
      && (format == Yaml ==> rules.blank(v.s) || rules.yamlMapping(v.s))
    case OneOf(choices) => v.Text? && v.s in (set i | 0 <= i < |choices| :: choices[i].value)
    case SecretReference(_) => v.Text? && StartsWithGame(v.s) && ValidKey(TrimGame(v.s))
    case Record(fields) =>
      && v.Object? && OnlyDeclaredHere(fields, v.entries)
      && forall i :: 0 <= i < |fields| ==> FieldFits(rules, fields[i], v.entries)
  }

  predicate FieldFits(rules: Rules, field: Field, stored: seq<Entry>)
    decreases field, 1
  {
    var value := Supplied(field, stored);
    if value.Some? then Conforms(rules, field, value.value) else !field.required
  }

  /** Normalization succeeds exactly on the values which fit. */
  lemma {:induction false} NormalizesIffConforms(rules: Rules, field: Field, v: Json, path: string)
    ensures NormalizeValue(rules, field, v, path).Ok? <==> Conforms(rules, field, v)
    decreases field, 0
  {
    if field.kind.Record? && v.Object? {
      var fields := field.kind.fields;
      FieldsFit(rules, fields, v.entries, path);
      assert NormalizeObject(rules, fields, v.entries, path).Ok? <==>
             OnlyDeclaredHere(fields, v.entries) && NormalizeFields(rules, fields, v.entries, path).Ok?;
      hide NormalizeFields, NormalizeObject, FieldFits, OnlyDeclaredHere;
    }
  }

  lemma {:induction false} FieldsFit(rules: Rules, fields: seq<Field>, stored: seq<Entry>, path: string)
    ensures NormalizeFields(rules, fields, stored, path).Ok? <==>
            forall i :: 0 <= i < |fields| ==> FieldFits(rules, fields[i], stored)
    decreases fields
  {
    if fields != [] {
      var front, field := fields[..|fields| - 1], fields[|fields| - 1];
      FieldsFit(rules, front, stored, path);
      var value := Supplied(field, stored);
      if value.Some? { NormalizesIffConforms(rules, field, value.value, ChildPath(path, field.key)); }
      hide NormalizeValue, Conforms, Supplied, Insert;
      assert fields == front + [field];
    }
  }

  lemma {:induction false} FirstErrorStays(rules: Rules, fields: seq<Field>, stored: seq<Entry>, path: string, i: nat)
    requires i <= |fields| && NormalizeFields(rules, fields[..i], stored, path).Err?
    ensures NormalizeFields(rules, fields, stored, path) == NormalizeFields(rules, fields[..i], stored, path)
  {
    hide NormalizeValue, Insert, Supplied;
    if i < |fields| {
      assert fields[..|fields| - 1][..i] == fields[..i];
      FirstErrorStays(rules, fields[..|fields| - 1], stored, path, i);
    } else {
      assert fields[..i] == fields;
    }
  }

  /** The check of a choice's options, over a growing set of values. */
  method ChoicesArePossible(rules: Rules, choices: seq<Choice>) returns (ok: bool)
    ensures ok <==> ValidChoices(rules, choices)
  {
    if choices == [] { return false; }
    var values: set<string> := {};
    for i := 0 to |choices|
      invariant values == set j | 0 <= j < i :: choices[j].value
      invariant forall j :: 0 <= j < i ==> choices[j].value != "" && !rules.blank(choices[j].name)
      invariant forall j, k :: 0 <= j < k < i ==> choices[j].value != choices[k].value
    {
      var c := choices[i];
      if c.value == "" || rules.blank(c.name) || c.value in values { return false; }
      values := values + {c.value};
    }
    ok := true;
  }

  /** `validate_fields`; the error names the offending field. */
  method ValidateFields(rules: Rules, fields: seq<Field>, path: string) returns (r: Result<(), string>)
    ensures r.Ok? <==> ValidFields(rules, fields)
    decreases fields
  {
    var keys: set<string> := {};
    var i := 0;
    while i < |fields|
      invariant 0 <= i <= |fields|
      invariant keys == (set j | 0 <= j < i :: fields[j].key)
      invariant DistinctFields(fields[..i]) && forall j :: 0 <= j < i ==> ValidField(rules, fields[j])
    {
      var field := fields[i];
      var name := ChildPath(path, field.key);
      if !ValidKey(field.key) || field.key in keys { return Err(name); }
      keys := keys + {field.key};
      match field.kind {
        case Int(minimum, maximum) =>
          if minimum.Some? && maximum.Some? && minimum.value > maximum.value { return Err(name); }
        case Real(low, high) =>
          if low.Some? && high.Some? && low.value > high.value { return Err(name); }
        case OneOf(choices) =>
          var possible := ChoicesArePossible(rules, choices);
          if !possible { return Err(name); }
        case Record(subfields) =>
          var nested := ValidateFields(rules, subfields, name);
          if nested.Err? { return nested; }
        case _ =>
      }
      if field.defaultValue != Null {
        var normal := NormalizeSupplied(rules, field, field.defaultValue, name);
        ValuePathIrrelevant(rules, field, field.defaultValue, name, "");
        if normal.Err? { return Err(normal.error); }
      }
      i := i + 1;
    }
    assert fields[..i] == fields;
    r := Ok(());
  }

  /** Two results with the same value, or two errors. */
  predicate Same<T(==)>(a: Result<T, string>, b: Result<T, string>) {
    (a.Ok? <==> b.Ok?) && (a.Ok? ==> a == b)
  }

  lemma {:induction false} ValuePathIrrelevant(rules: Rules, field: Field, v: Json, p: string, q: string)
    ensures Same(NormalizeValue(rules, field, v, p), NormalizeValue(rules, field, v, q))
    decreases field, 0
  {
    if field.kind.Record? && v.Object? {
      FieldsPathIrrelevant(rules, field.kind.fields, v.entries, p, q);
    }
  }

  lemma {:induction false} FieldsPathIrrelevant(rules: Rules, fields: seq<Field>, stored: seq<Entry>, p: string, q: string)
    ensures Same(NormalizeFields(rules, fields, stored, p), NormalizeFields(rules, fields, stored, q))
    decreases fields
  {
    if fields != [] {
      var field := fields[|fields| - 1];
      FieldsPathIrrelevant(rules, fields[..|fields| - 1], stored, p, q);
      var value := Supplied(field, stored);
      if value.Some? { ValuePathIrrelevant(rules, field, value.value, ChildPath(p, field.key), ChildPath(q, field.key)); }
    }
    hide NormalizeValue, Supplied, Insert;
  }

  // ----- Normal settings -----

  /** Settings with only declared keys, at every depth; a missing field is optional and has no default;
      a number is a float and a secret reference names a secret of the game. */
  predicate Normal(fields: seq<Field>, stored: seq<Entry>)
    decreases fields
  {
    && OnlyDeclaredHere(fields, stored) && DistinctKeys(stored)
    && forall i :: 0 <= i < |fields| ==> NormalField(fields[i], Find(stored, fields[i].key))
  }

  predicate NormalField(field: Field, found: Option<Json>)
    decreases field
  {
    if found.None? then !field.required && field.defaultValue == Null else
      match field.kind
      case Record(fields) => found.value.Object? && Normal(fields, found.value.entries)
      case Real(_, _) => found.value.Num? && found.value.n.Float?
      case SecretReference(_) => found.value.Text? && StartsWithGame(found.value.s) && ValidKey(TrimGame(found.value.s))
      case _ => true
  }

  lemma {:induction false} FindInsert(entries: seq<Entry>, key: string, value: Json, other: string)
    ensures Find(Insert(entries, key, value), other) == if key == other then Some(value) else Find(entries, other)
  {
    if entries != [] && entries[0].key != key { FindInsert(entries[1..], key, value, other); }
  }

  lemma {:induction false} InsertNew(entries: seq<Entry>, key: string, value: Json)
    requires key !in Keys(entries)
    ensures Insert(entries, key, value) == entries + [Entry(key, value)]
  {
    if entries != [] {
      assert entries[0] in entries;
      assert forall e :: e in entries[1..] ==> e in entries;
      InsertNew(entries[1..], key, value);
    }
  }

  lemma {:induction false} FindNone(entries: seq<Entry>, key: string)
    ensures Find(entries, key).None? <==> key !in Keys(entries)
  {
    if entries != [] {
      FindNone(entries[1..], key);
      assert entries == [entries[0]] + entries[1..];
      assert Keys(entries) == {entries[0].key} + Keys(entries[1..]);
    }
  }

  /** What `full` must hold for one field to be the normalization of `stored` at that field. */
  predicate FieldHolds(rules: Rules, field: Field, stored: seq<Entry>, path: string, full: seq<Entry>) {
    var value := Supplied(field, stored);
    if value.None? then !field.required && Find(full, field.key) == None else
      var normal := NormalizeValue(rules, field, value.value, ChildPath(path, field.key));
      normal.Ok? && Find(full, field.key) == Some(normal.value)
  }

  predicate Holds(rules: Rules, fields: seq<Field>, stored: seq<Entry>, path: string, full: seq<Entry>) {
    forall i :: 0 <= i < |fields| ==> FieldHolds(rules, fields[i], stored, path, full)
  }

  predicate AllKeysDeclared(fields: seq<Field>, entries: seq<Entry>) {
    OnlyDeclaredHere(fields, entries) && DistinctKeys(entries)
  }

  lemma DeclaredGrows(fields: seq<Field>, entries: seq<Entry>, field: Field, value: Json)
    requires AllKeysDeclared(fields, entries) && DistinctFields(fields + [field])
    ensures AllKeysDeclared(fields + [field], entries) && field.key !in Keys(entries)
    ensures AllKeysDeclared(fields + [field], entries + [Entry(field.key, value)])
  {
    var all := fields + [field];
    assert all[|fields|] == field;
    forall i | 0 <= i < |entries| ensures Declared(all, entries[i].key) && entries[i].key != field.key {
      var j :| 0 <= j < |fields| && fields[j].key == entries[i].key;
      assert all[j].key == entries[i].key;
    }
    assert Declared(all, field.key);
  }

  lemma HoldsAfterInsert(rules: Rules, fields: seq<Field>, stored: seq<Entry>, path: string, full: seq<Entry>, key: string, value: Json)
    requires Holds(rules, fields, stored, path, full) && forall i :: 0 <= i < |fields| ==> fields[i].key != key
    ensures Holds(rules, fields, stored, path, Insert(full, key, value))
  {
    hide NormalizeValue, Supplied, Insert;
    forall i | 0 <= i < |fields| ensures FieldHolds(rules, fields[i], stored, path, Insert(full, key, value)) {
      assert FieldHolds(rules, fields[i], stored, path, full);
      FindInsert(full, key, value, fields[i].key);
    }
  }

  /** One more field of a successful normalization. */
  lemma OneMoreField(rules: Rules, front: seq<Field>, field: Field, stored: seq<Entry>, path: string)
    requires NormalizeFields(rules, front + [field], stored, path).Ok?
    ensures NormalizeFields(rules, front, stored, path).Ok?
    ensures var value, full := Supplied(field, stored), NormalizeFields(rules, front + [field], stored, path).value;
      var entries := NormalizeFields(rules, front, stored, path).value;
      if value.None? then !field.required && full == entries else
        var normal := NormalizeValue(rules, field, value.value, ChildPath(path, field.key));
        normal.Ok? && full == Insert(entries, field.key, normal.value)
  {
    hide NormalizeValue, Supplied, Insert;
    assert (front + [field])[..|front|] == front;
  }

  lemma NothingHolds(rules: Rules, stored: seq<Entry>, path: string)
    ensures NormalizeFields(rules, [], stored, path) == Ok([])
    ensures Holds(rules, [], stored, path, []) && AllKeysDeclared([], [])
  {
  }

  /** What a successful normalization contains. */
  lemma {:induction false} ResultHolds(rules: Rules, fields: seq<Field>, stored: seq<Entry>, path: string, full: seq<Entry>)
    requires DistinctFields(fields) && NormalizeFields(rules, fields, stored, path) == Ok(full)
    ensures Holds(rules, fields, stored, path, full) && AllKeysDeclared(fields, full)
  {
    hide NormalizeFields, NormalizeValue, Supplied, Insert, Holds, AllKeysDeclared;
    if fields == [] {
      NothingHolds(rules, stored, path);
    } else {
      var front, field := fields[..|fields| - 1], fields[|fields| - 1];
      assert fields == front + [field];
      OneMoreField(rules, front, field, stored, path);
      var entries := NormalizeFields(rules, front, stored, path).value;
      ResultHolds(rules, front, stored, path, entries);
      FieldAdded(rules, front, field, stored, path, entries);
    }
  }

  lemma FieldAdded(rules: Rules, front: seq<Field>, field: Field, stored: seq<Entry>, path: string, entries: seq<Entry>)
    requires DistinctFields(front + [field]) && AllKeysDeclared(front, entries) && Holds(rules, front, stored, path, entries)
    ensures var value, fields := Supplied(field, stored), front + [field];
      if value.None? then
        !field.required ==> Holds(rules, fields, stored, path, entries) && AllKeysDeclared(fields, entries)
      else
        var normal := NormalizeValue(rules, field, value.value, ChildPath(path, field.key));
        normal.Ok? ==>
          var full := Insert(entries, field.key, normal.value);
          Holds(rules, fields, stored, path, full) && AllKeysDeclared(fields, full)
  {
    var value, fields := Supplied(field, stored), front + [field];
    assert forall i :: 0 <= i < |front| ==> fields[i] == front[i] && front[i].key != fields[|front|].key;
    hide NormalizeValue, Supplied, Insert, AllKeysDeclared;
    DeclaredGrows(front, entries, field, Null);
    FindNone(entries, field.key);
    if value.Some? {
      var normal := NormalizeValue(rules, field, value.value, ChildPath(path, field.key));
      if normal.Ok? {
        var full := Insert(entries, field.key, normal.value);
        DeclaredGrows(front, entries, field, normal.value);
        InsertNew(entries, field.key, normal.value);
        FindInsert(entries, field.key, normal.value, field.key);
        HoldsAfterInsert(rules, front, stored, path, entries, field.key, normal.value);
        assert FieldHolds(rules, field, stored, path, full);
      }
    }
  }

  // ----- Idempotence -----

  lemma {:induction false} ValueIdempotent(rules: Rules, field: Field, v: Json, path: string)
    requires ValidField(rules, field) && NormalizeValue(rules, field, v, path).Ok?
    ensures var w := NormalizeValue(rules, field, v, path).value; NormalizeValue(rules, field, w, path) == Ok(w)
    decreases field, 0
  {
    if field.kind.Record? {
      var fields := field.kind.fields;
      var full := NormalizeFields(rules, fields, v.entries, path).value;
      ResultHolds(rules, fields, v.entries, path, full);
      Refill(rules, fields, v.entries, path, full);
    }
  }

  /** Normalizing what a normalization produced finds every value again and keeps it. */
  lemma {:induction false} Refill(rules: Rules, fields: seq<Field>, stored: seq<Entry>, path: string, full: seq<Entry>)
    requires forall i :: 0 <= i < |fields| ==> ValidField(rules, fields[i])
    requires Holds(rules, fields, stored, path, full)
    ensures NormalizeFields(rules, fields, full, path).Ok?
    ensures NormalizeFields(rules, fields, full, path) == NormalizeFields(rules, fields, stored, path)
    decreases fields
  {
    hide NormalizeValue, Insert, ValidField;
    if fields != [] {
      var front, field := fields[..|fields| - 1], fields[|fields| - 1];
      Refill(rules, front, stored, path, full);
      assert FieldHolds(rules, field, stored, path, full);
      var value := Supplied(field, stored);
      if value.Some? { ValueIdempotent(rules, field, value.value, ChildPath(path, field.key)); }
    }
  }

  /** For a definition accepted by `validate`, normalized settings are their own normalization. */
  lemma NormalizeIdempotent(rules: Rules, fields: seq<Field>, settings: Json)
    requires ValidFields(rules, fields) && NormalizeSettings(rules, fields, settings).Ok?
    ensures var normal := NormalizeSettings(rules, fields, settings).value;
      NormalizeSettings(rules, fields, normal) == Ok(normal)
  {
    if settings.Object? {
      var full := NormalizeFields(rules, fields, settings.entries, "config").value;
      ResultHolds(rules, fields, settings.entries, "config", full);
      Refill(rules, fields, settings.entries, "config", full);
    }
    hide NormalizeValue, Insert, Holds;
  }

  // ----- What a normal form holds -----

  /** `w` is `v` as the field stores it: the same value, a number as a float, a record with exactly its
      declared keys, each holding the normal form of the stored value, or else of the default. */
  predicate IsNormalOf(rules: Rules, field: Field, v: Json, w: Json)
    decreases field, 0
  {
    match field.kind
    case Real(_, _) => v.Num? && w == Num(Float(if v.n.Float? then v.n.r else rules.toFloat(v.n.i)))
    case Record(fields) =>
      && v.Object? && w.Object? && DistinctKeys(w.entries)
      && (forall i :: 0 <= i < |w.entries| ==> exists j :: 0 <= j < |fields| && fields[j].key == w.entries[i].key)
      && forall j :: 0 <= j < |fields| ==> IsNormalAt(rules, fields[j], v.entries, Find(w.entries, fields[j].key))
    case _ => w == v
  }

  /** What a record's normal form holds for one field. */
  predicate IsNormalAt(rules: Rules, field: Field, stored: seq<Entry>, got: Option<Json>)
    decreases field, 1
  {
    var given := Find(stored, field.key);
    if given.Some? then got.Some? && IsNormalOf(rules, field, given.value, got.value)
    else if field.defaultValue != Null then got.Some? && IsNormalOf(rules, field, field.defaultValue, got.value)
    else got.None? && !field.required
  }

  /** Normalization keeps every stored value and fills in defaults only for missing ones. */
  lemma {:induction false} NormalizedHoldsValue(rules: Rules, field: Field, v: Json, path: string)
    requires ValidField(rules, field) && NormalizeValue(rules, field, v, path).Ok?
    ensures IsNormalOf(rules, field, v, NormalizeValue(rules, field, v, path).value)
    decreases field, 0
  {
    if field.kind.Record? {
      NormalizedHoldsFields(rules, field.kind.fields, v.entries, path);
    }
  }

  lemma {:induction false} NormalizedHoldsFields(rules: Rules, fields: seq<Field>, stored: seq<Entry>, path: string)
    requires ValidFields(rules, fields) && NormalizeFields(rules, fields, stored, path).Ok?
    ensures var full := NormalizeFields(rules, fields, stored, path).value;
      && AllKeysDeclared(fields, full)
      && forall j :: 0 <= j < |fields| ==> IsNormalAt(rules, fields[j], stored, Find(full, fields[j].key))
    decreases fields
  {
    var full := NormalizeFields(rules, fields, stored, path).value;
    ResultHolds(rules, fields, stored, path, full);
    hide NormalizeFields, NormalizeValue, ValidField, IsNormalOf;
    forall j | 0 <= j < |fields| ensures IsNormalAt(rules, fields[j], stored, Find(full, fields[j].key)) {
      assert FieldHolds(rules, fields[j], stored, path, full);
      var value := Supplied(fields[j], stored);
      if value.Some? { NormalizedHoldsValue(rules, fields[j], value.value, ChildPath(path, fields[j].key)); }
    }
  }

  /** The same for whole settings. */
  lemma NormalizedHoldsSettings(rules: Rules, fields: seq<Field>, settings: Json)
    requires ValidFields(rules, fields) && NormalizeSettings(rules, fields, settings).Ok?
    ensures var normal, stored := NormalizeSettings(rules, fields, settings).value, if settings.Object? then settings.entries else [];
      && normal.Object?
      && (forall i :: 0 <= i < |normal.entries| ==> exists j :: 0 <= j < |fields| && fields[j].key == normal.entries[i].key)
      && forall j :: 0 <= j < |fields| ==> IsNormalAt(rules, fields[j], stored, Find(normal.entries, fields[j].key))
  {
    if settings.Object? {
      NormalizedHoldsFields(rules, fields, settings.entries, "config");
      hide NormalizeFields, IsNormalAt, ValidFields;
    }
  }

  // ----- Shape -----

  lemma {:induction false} ValueIsNormal(rules: Rules, field: Field, v: Json, path: string)
    requires ValidField(rules, field) && NormalizeValue(rules, field, v, path).Ok?
    ensures NormalField(field, Some(NormalizeValue(rules, field, v, path).value))
    decreases field, 0
  {
    if field.kind.Record? {
      FieldsAreNormal(rules, field.kind.fields, v.entries, path);
    }
  }

  lemma {:induction false} FieldsAreNormal(rules: Rules, fields: seq<Field>, stored: seq<Entry>, path: string)
    requires ValidFields(rules, fields) && NormalizeFields(rules, fields, stored, path).Ok?
    ensures Normal(fields, NormalizeFields(rules, fields, stored, path).value)
    decreases fields
  {
    var full := NormalizeFields(rules, fields, stored, path).value;
    ResultHolds(rules, fields, stored, path, full);
    hide NormalizeFields, NormalizeValue, ValidField;
    forall i | 0 <= i < |fields| ensures NormalField(fields[i], Find(full, fields[i].key)) {
      assert FieldHolds(rules, fields[i], stored, path, full);
      var value := Supplied(fields[i], stored);
      if value.Some? { ValueIsNormal(rules, fields[i], value.value, ChildPath(path, fields[i].key)); }
    }
  }

  /** Normalized settings have only declared keys, at every depth, and miss no required field. */
  lemma NormalizedIsNormal(rules: Rules, fields: seq<Field>, settings: Json)
    requires ValidFields(rules, fields) && NormalizeSettings(rules, fields, settings).Ok?
    ensures var normal := NormalizeSettings(rules, fields, settings).value;
      normal.Object? && Normal(fields, normal.entries)
  {
    if settings.Object? { FieldsAreNormal(rules, fields, settings.entries, "config"); }
  }

  predicate HasDefaults(fields: seq<Field>) {
    forall i :: 0 <= i < |fields| ==> fields[i].required ==> fields[i].defaultValue != Null
  }

  /** A valid field takes its own default. */
  lemma DefaultNormalizes(rules: Rules, field: Field, path: string)
    requires ValidField(rules, field) && field.defaultValue != Null
    ensures NormalizeValue(rules, field, field.defaultValue, path).Ok?
  {
    ValuePathIrrelevant(rules, field, field.defaultValue, "", path);
    hide NormalizeValue;
  }

  lemma {:induction false} EmptyFields(rules: Rules, fields: seq<Field>, path: string)
    requires forall i :: 0 <= i < |fields| ==> ValidField(rules, fields[i])
    ensures NormalizeFields(rules, fields, [], path).Ok? <==> HasDefaults(fields)
  {
    hide NormalizeValue, Insert, ValidField;
    if fields != [] {
      var front, field := fields[..|fields| - 1], fields[|fields| - 1];
      assert fields == front + [field];
      EmptyFields(rules, front, path);
      if field.defaultValue != Null { DefaultNormalizes(rules, field, ChildPath(path, field.key)); }
    }
  }

  /** The empty object can be normalized exactly when every required top-level field has a default. */
  lemma EmptySettings(rules: Rules, fields: seq<Field>)
    requires ValidFields(rules, fields)
    ensures NormalizeSettings(rules, fields, Object([])).Ok? <==> HasDefaults(fields)
  {
    EmptyFields(rules, fields, "config");
  }

  // ----- Secrets -----

  type Secrets = map<string, string>

  datatype Problem = NotAnObject | NotAString | NoGamePrefix | MissingSecret(reference: string)

  datatype Delivery = Delivery(path: string, purpose: Purpose, secret: string)

  /** `strip_prefix`: the prefix is removed once. */
  function Referenced(reference: string): string
    requires StartsWithGame(reference)
  {
    reference[|GAME|..]
  }

  /** The deliveries of one field, in the order in which the code makes them. */
  function ResolveField(field: Field, values: seq<Entry>, path: string, secrets: Secrets): Result<seq<Delivery>, Problem>
    decreases field
  {
    var found := Find(values, field.key);
    if found.None? then Ok([]) else
      match field.kind
      case SecretReference(purpose) =>
        if !found.value.Text? then Err(NotAString)
        else if !StartsWithGame(found.value.s) then Err(NoGamePrefix)
        else if Referenced(found.value.s) !in secrets then Err(MissingSecret(found.value.s))
        else Ok([Delivery(ChildPath(path, field.key), purpose, secrets[Referenced(found.value.s)])])
      case Record(fields) =>
        if !found.value.Object? then Err(NotAnObject)
        else ResolveFields(fields, found.value.entries, ChildPath(path, field.key), secrets)
      case _ => Ok([])
  }

  function ResolveFields(fields: seq<Field>, values: seq<Entry>, path: string, secrets: Secrets): Result<seq<Delivery>, Problem>
    decreases fields
  {
    if fields == [] then Ok([]) else
      var before :- ResolveFields(fields[..|fields| - 1], values, path, secrets);
      var last :- ResolveField(fields[|fields| - 1], values, path, secrets);
      Ok(before + last)
  }

  /** The map which the deliveries for one purpose make. */
  function Delivered(deliveries: seq<Delivery>, purpose: Purpose): Secrets {
    if deliveries == [] then map[] else
      var before, d := Delivered(deliveries[..|deliveries| - 1], purpose), deliveries[|deliveries| - 1];
      if d.purpose == purpose then before[d.path := d.secret] else before
  }

  lemma {:induction false} DeliveredTogether(a: seq<Delivery>, b: seq<Delivery>, purpose: Purpose)
    ensures Delivered(a + b, purpose) == Delivered(a, purpose) + Delivered(b, purpose)
  {
    if b == [] {
      assert a + b == a;
    } else {
      DeliveredTogether(a, b[..|b| - 1], purpose);
      assert (a + b)[..|a + b| - 1] == a + b[..|b| - 1];
    }
  }

  /** The deliveries take the first pair of secret sets to the second. */
  ghost predicate Filled(f0: Secrets, i0: Secrets, deliveries: seq<Delivery>, f1: Secrets, i1: Secrets) {
    f1 == f0 + Delivered(deliveries, Factory) && i1 == i0 + Delivered(deliveries, AgentInstance)
  }

  lemma FilledByNone(f: Secrets, i: Secrets)
    ensures Filled(f, i, [], f, i)
  {
  }

  lemma FilledByOne(f: Secrets, i: Secrets, d: Delivery)
    ensures d.purpose == Factory ==> Filled(f, i, [d], f[d.path := d.secret], i)
    ensures d.purpose == AgentInstance ==> Filled(f, i, [d], f, i[d.path := d.secret])
  {
    assert [d][..0] == [];
  }

  lemma FilledTogether(f0: Secrets, i0: Secrets, a: seq<Delivery>, f1: Secrets, i1: Secrets, b: seq<Delivery>, f2: Secrets, i2: Secrets)
    requires Filled(f0, i0, a, f1, i1) && Filled(f1, i1, b, f2, i2)
    ensures Filled(f0, i0, a + b, f2, i2)
  {
    DeliveredTogether(a, b, Factory);
    DeliveredTogether(a, b, AgentInstance);
    hide Delivered;
  }

  lemma FilledFromNothing(deliveries: seq<Delivery>)
    ensures Filled(map[], map[], deliveries, Delivered(deliveries, Factory), Delivered(deliveries, AgentInstance))
  {
  }

  /** The two secret sets which resolution fills. */
  class SecretSets {
    var factory: Secrets
    var instance: Secrets

    constructor ()
      ensures factory == map[] && instance == map[]
    {
      factory, instance := map[], map[];
    }

    /** `resolve_field_secrets`. */
    method ResolveFieldSecrets(fields: seq<Field>, values: seq<Entry>, path: string, secrets: Secrets)
        returns (r: Result<(), Problem>)
      modifies this
      ensures var d := ResolveFields(fields, values, path, secrets);
        && (d.Err? ==> r == Err(d.error))
        && (d.Ok? ==> r.Ok? && Filled(old(factory), old(instance), d.value, factory, instance))
      decreases fields
    {
      hide Filled, Delivered;
      FilledByNone(factory, instance);
      var i := 0;
      while i < |fields|
        invariant 0 <= i <= |fields|
        invariant var d := ResolveFields(fields[..i], values, path, secrets);
          d.Ok? && Filled(old(factory), old(instance), d.value, factory, instance)
      {
        var field := fields[i];
        ghost var before := ResolveFields(fields[..i], values, path, secrets).value;
        ghost var here := ResolveField(field, values, path, secrets);
        assert fields[..i + 1][..i] == fields[..i];
        if here.Err? { FirstProblemStays(fields, values, path, secrets, i + 1); }
        ghost var f1, i1 := factory, instance;
        FilledByNone(f1, i1);
        var found := Find(values, field.key);
        if found.Some? {
          var fieldPath := ChildPath(path, field.key);
          match field.kind {
            case SecretReference(purpose) =>
              if !found.value.Text? { return Err(NotAString); }
              var reference := found.value.s;
              if !StartsWithGame(reference) { return Err(NoGamePrefix); }
              if Referenced(reference) !in secrets { return Err(MissingSecret(reference)); }
              var secret := secrets[Referenced(reference)];
              FilledByOne(f1, i1, Delivery(fieldPath, purpose, secret));
              if purpose == Factory {
                factory := factory[fieldPath := secret];
              } else {
                instance := instance[fieldPath := secret];
              }
            case Record(subfields) =>
              if !found.value.Object? { return Err(NotAnObject); }
              var nested := ResolveFieldSecrets(subfields, found.value.entries, fieldPath, secrets);
              if nested.Err? { return nested; }
            case _ =>
          }
        }
        FilledTogether(old(factory), old(instance), before, f1, i1, here.value, factory, instance);
        i := i + 1;
      }
      assert fields[..i] == fields;
      r := Ok(());
    }
  }

  lemma {:induction false} FirstProblemStays(fields: seq<Field>, values: seq<Entry>, path: string, secrets: Secrets, i: nat)
    requires i <= |fields| && ResolveFields(fields[..i], values, path, secrets).Err?
    ensures ResolveFields(fields, values, path, secrets) == ResolveFields(fields[..i], values, path, secrets)
  {
    hide ResolveField;
    if i < |fields| {
      assert fields[..|fields| - 1][..i] == fields[..i];
      FirstProblemStays(fields[..|fields| - 1], values, path, secrets, i);
    } else {
      assert fields[..i] == fields;
    }
  }

  /** `resolve_secrets`: two sets, of the factory and of the agent instance. */
  method ResolveSecrets(fields: seq<Field>, settings: Json, secrets: Secrets) returns (r: Result<(Secrets, Secrets), Problem>)
    ensures if !settings.Object? then r == Err(NotAnObject) else
      var d := ResolveFields(fields, settings.entries, "config", secrets);
      r == if d.Err? then Err(d.error) else Ok((Delivered(d.value, Factory), Delivered(d.value, AgentInstance)))
  {
    if !settings.Object? { return Err(NotAnObject); }
    var sets := new SecretSets();
    var done := sets.ResolveFieldSecrets(fields, settings.entries, "config", secrets);
    if done.Ok? {
      var d := ResolveFields(fields, settings.entries, "config", secrets).value;
      FilledFromNothing(d);
    }
    r := if done.Err? then Err(done.error) else Ok((sets.factory, sets.instance));
  }

  // ----- Where the secrets are -----

  /** Following `keys` from this field through nested records leads to a reference to a secret. */
  predicate SecretIn(field: Field, values: seq<Entry>, keys: seq<string>, purpose: Purpose, reference: string)
    decreases |keys|, 0
  {
    && keys != [] && field.key == keys[0] && Find(values, field.key).Some?
    && var value := Find(values, field.key).value;
       match field.kind
       case SecretReference(p) => |keys| == 1 && p == purpose && value == Text(reference)
       case Record(fields) => value.Object? && SecretAt(fields, value.entries, keys[1..], purpose, reference)
       case _ => false
  }

  predicate SecretAt(fields: seq<Field>, values: seq<Entry>, keys: seq<string>, purpose: Purpose, reference: string)
    decreases |keys|, 1
  {
    exists i :: 0 <= i < |fields| && SecretIn(fields[i], values, keys, purpose, reference)
  }

  function Dotted(path: string, keys: seq<string>): string {
    path + Suffix(keys)
  }

  function Suffix(keys: seq<string>): string {
    if keys == [] then "" else "." + keys[0] + Suffix(keys[1..])
  }

  predicate DotFree(key: string) { '.' !in key }

  lemma ValidKeyHasNoDot(key: string)
    requires ValidKey(key)
    ensures DotFree(key)
  {
  }

  lemma {:induction false} SuffixInjective(a: seq<string>, b: seq<string>)
    requires forall i :: 0 <= i < |a| ==> DotFree(a[i])
    requires forall i :: 0 <= i < |b| ==> DotFree(b[i])
    requires Suffix(a) == Suffix(b)
    ensures a == b
  {
    if a != [] && b != [] {
      HeadsEqual(a[0], Suffix(a[1..]), b[0], Suffix(b[1..]));
      SuffixInjective(a[1..], b[1..]);
    }
  }

  predicate StartsWithDot(s: string) { s == "" || s[0] == '.' }

  lemma DotInLonger(k: string, r: string, l: string, t: string)
    requires k + r == l + t && |k| < |l| && StartsWithDot(r)
    ensures '.' in l
  {
    assert (k + r)[|k|] == r[0] && (l + t)[|k|] == l[|k|];
  }

  lemma HeadsEqual(k: string, r: string, l: string, t: string)
    requires DotFree(k) && DotFree(l) && StartsWithDot(r) && StartsWithDot(t)
    requires "." + k + r == "." + l + t
    ensures k == l && r == t
  {
    assert ("." + k + r)[1..] == k + r && ("." + l + t)[1..] == l + t;
    if |k| < |l| { DotInLonger(k, r, l, t); }
    if |l| < |k| { DotInLonger(l, t, k, r); }
    assert (k + r)[..|k|] == k && (l + t)[..|l|] == l;
    assert (k + r)[|k|..] == r && (l + t)[|l|..] == t;
  }

  lemma {:induction false} SecretKeysValid(
      rules: Rules, fields: seq<Field>, values: seq<Entry>, keys: seq<string>, purpose: Purpose, reference: string)
    requires ValidFields(rules, fields) && SecretAt(fields, values, keys, purpose, reference)
    ensures forall i :: 0 <= i < |keys| ==> DotFree(keys[i])
    decreases |keys|
  {
    var i :| 0 <= i < |fields| && SecretIn(fields[i], values, keys, purpose, reference);
    assert ValidField(rules, fields[i]);
    ValidKeyHasNoDot(fields[i].key);
    if fields[i].kind.Record? {
      SecretKeysValid(rules, fields[i].kind.fields, Find(values, keys[0]).value.entries, keys[1..], purpose, reference);
      assert forall k :: 1 <= k < |keys| ==> keys[k] == keys[1..][k - 1];
    }
  }

  /** The keys determine the purpose and the reference. */
  lemma {:induction false} OneSecretPerAddress(
      rules: Rules, fields: seq<Field>, values: seq<Entry>, keys: seq<string>, p: Purpose, r: string, q: Purpose, t: string)
    requires ValidFields(rules, fields) && SecretAt(fields, values, keys, p, r) && SecretAt(fields, values, keys, q, t)
    ensures p == q && r == t
    decreases |keys|
  {
    var i :| 0 <= i < |fields| && SecretIn(fields[i], values, keys, p, r);
    var j :| 0 <= j < |fields| && SecretIn(fields[j], values, keys, q, t);
    assert i == j;
    assert ValidField(rules, fields[i]);
    if fields[i].kind.Record? {
      OneSecretPerAddress(rules, fields[i].kind.fields, Find(values, keys[0]).value.entries, keys[1..], p, r, q, t);
    }
  }

  /** Two present secret references never share a dotted path. */
  lemma PathsDiffer(rules: Rules, fields: seq<Field>, values: seq<Entry>, path: string,
                    a: seq<string>, p: Purpose, r: string, b: seq<string>, q: Purpose, t: string)
    requires ValidFields(rules, fields) && SecretAt(fields, values, a, p, r) && SecretAt(fields, values, b, q, t)
    requires Dotted(path, a) == Dotted(path, b)
    ensures a == b && p == q && r == t
  {
    hide ValidFields, SecretAt;
    SecretKeysValid(rules, fields, values, a, p, r);
    SecretKeysValid(rules, fields, values, b, q, t);
    assert Dotted(path, a)[|path|..] == Suffix(a) && Dotted(path, b)[|path|..] == Suffix(b);
    SuffixInjective(a, b);
    OneSecretPerAddress(rules, fields, values, a, p, r, q, t);
  }

  // ----- What is delivered -----

  predicate Known(reference: string, secrets: Secrets) {
    StartsWithGame(reference) && Referenced(reference) in secrets
  }

  predicate IsDelivery(d: Delivery, path: string, keys: seq<string>, purpose: Purpose, reference: string, secrets: Secrets) {
    Known(reference, secrets) && d == Delivery(Dotted(path, keys), purpose, secrets[Referenced(reference)])
  }

  predicate IsAmong(deliveries: seq<Delivery>, path: string, keys: seq<string>, purpose: Purpose, reference: string, secrets: Secrets) {
    exists k :: 0 <= k < |deliveries| && IsDelivery(deliveries[k], path, keys, purpose, reference, secrets)
  }

  ghost predicate IsOfField(d: Delivery, field: Field, values: seq<Entry>, path: string, secrets: Secrets) {
    exists keys, purpose, reference :: SecretIn(field, values, keys, purpose, reference)
      && IsDelivery(d, path, keys, purpose, reference, secrets)
  }

  ghost predicate IsOfFields(d: Delivery, fields: seq<Field>, values: seq<Entry>, path: string, secrets: Secrets) {
    exists keys, purpose, reference :: SecretAt(fields, values, keys, purpose, reference)
      && IsDelivery(d, path, keys, purpose, reference, secrets)
  }

  ghost predicate FieldSecretsDelivered(field: Field, values: seq<Entry>, path: string, secrets: Secrets, deliveries: seq<Delivery>) {
    && (forall keys, purpose, reference :: SecretIn(field, values, keys, purpose, reference) ==>
          IsAmong(deliveries, path, keys, purpose, reference, secrets))
    && (forall k :: 0 <= k < |deliveries| ==> IsOfField(deliveries[k], field, values, path, secrets))
  }

  /** The deliveries are those of the present secret references, no more and no fewer. */
  ghost predicate SecretsDelivered(fields: seq<Field>, values: seq<Entry>, path: string, secrets: Secrets, deliveries: seq<Delivery>) {
    && (forall keys, purpose, reference :: SecretAt(fields, values, keys, purpose, reference) ==>
          IsAmong(deliveries, path, keys, purpose, reference, secrets))
    && (forall k :: 0 <= k < |deliveries| ==> IsOfFields(deliveries[k], fields, values, path, secrets))
  }

  /** The reference is present and names a secret which does not exist. */
  ghost predicate IsMissing(fields: seq<Field>, values: seq<Entry>, reference: string, secrets: Secrets) {
    !Known(reference, secrets) && exists keys, purpose :: SecretAt(fields, values, keys, purpose, reference)
  }

  lemma OneFieldDelivered(rules: Rules, field: Field, values: seq<Entry>, path: string, secrets: Secrets)
    requires ValidField(rules, field) && NormalField(field, Find(values, field.key))
    ensures var d := ResolveField(field, values, path, secrets);
      && (d.Ok? ==> FieldSecretsDelivered(field, values, path, secrets, d.value))
      && (d.Err? ==> d.error.MissingSecret? && !Known(d.error.reference, secrets)
                     && exists keys, purpose :: SecretIn(field, values, keys, purpose, d.error.reference))
    decreases field, 1
  {
    var found := Find(values, field.key);
    if found.Some? && field.kind.Record? {
      NestedDelivered(rules, field, values, path, secrets);
    } else if found.Some? && field.kind.SecretReference? {
      SecretDelivered(field, values, path, secrets);
    }
  }

  lemma SecretDelivered(field: Field, values: seq<Entry>, path: string, secrets: Secrets)
    requires Find(values, field.key).Some? && field.kind.SecretReference?
    requires NormalField(field, Find(values, field.key))
    ensures var d := ResolveField(field, values, path, secrets);
      && (d.Ok? ==> FieldSecretsDelivered(field, values, path, secrets, d.value))
      && (d.Err? ==> d.error.MissingSecret? && !Known(d.error.reference, secrets)
                     && exists keys, purpose :: SecretIn(field, values, keys, purpose, d.error.reference))
  {
    var reference, keys := Find(values, field.key).value.s, [field.key];
    assert SecretIn(field, values, keys, field.kind.purpose, reference);
    assert Suffix(keys[1..]) == "" && Dotted(path, keys) == ChildPath(path, field.key);
    var d := ResolveField(field, values, path, secrets);
    if d.Ok? {
      assert IsDelivery(d.value[0], path, keys, field.kind.purpose, reference, secrets);
      assert IsOfField(d.value[0], field, values, path, secrets);
    }
    forall ks, p, r | SecretIn(field, values, ks, p, r) ensures ks == keys && p == field.kind.purpose && r == reference {
    }
  }

  lemma NestedDelivered(rules: Rules, field: Field, values: seq<Entry>, path: string, secrets: Secrets)
    requires ValidField(rules, field) && NormalField(field, Find(values, field.key))
    requires Find(values, field.key).Some? && field.kind.Record?
    ensures var d := ResolveField(field, values, path, secrets);
      && (d.Ok? ==> FieldSecretsDelivered(field, values, path, secrets, d.value))
      && (d.Err? ==> d.error.MissingSecret? && !Known(d.error.reference, secrets)
                     && exists keys, purpose :: SecretIn(field, values, keys, purpose, d.error.reference))
    decreases field, 0
  {
    var fields, entries, below := field.kind.fields, Find(values, field.key).value.entries, ChildPath(path, field.key);
    AllFieldsDelivered(rules, fields, entries, below, secrets);
    var d := ResolveField(field, values, path, secrets);
    assert d == ResolveFields(fields, entries, below, secrets);
    hide ResolveFields, ResolveField, ValidFields, Normal, IsDelivery;
    if d.Err? {
      var keys, purpose :| SecretAt(fields, entries, keys, purpose, d.error.reference);
      assert SecretIn(field, values, [field.key] + keys, purpose, d.error.reference);
    } else {
      forall keys, p, r | SecretIn(field, values, keys, p, r) ensures IsAmong(d.value, path, keys, p, r, secrets) {
        assert SecretAt(fields, entries, keys[1..], p, r);
        assert keys == [field.key] + keys[1..];
        AmongDeeper(d.value, path, field.key, keys[1..], p, r, secrets);
      }
      forall k | 0 <= k < |d.value| ensures IsOfField(d.value[k], field, values, path, secrets) {
        OfFieldDeeper(d.value[k], field, values, path, secrets);
      }
    }
  }

  lemma AmongDeeper(deliveries: seq<Delivery>, path: string, key: string, keys: seq<string>, p: Purpose, r: string, secrets: Secrets)
    requires IsAmong(deliveries, ChildPath(path, key), keys, p, r, secrets)
    ensures IsAmong(deliveries, path, [key] + keys, p, r, secrets)
  {
    hide IsDelivery;
    var k :| 0 <= k < |deliveries| && IsDelivery(deliveries[k], ChildPath(path, key), keys, p, r, secrets);
    SameDelivery(deliveries[k], path, key, keys, p, r, secrets);
  }

  lemma OfFieldDeeper(d: Delivery, field: Field, values: seq<Entry>, path: string, secrets: Secrets)
    requires field.kind.Record? && Find(values, field.key).Some? && Find(values, field.key).value.Object?
    requires IsOfFields(d, field.kind.fields, Find(values, field.key).value.entries, ChildPath(path, field.key), secrets)
    ensures IsOfField(d, field, values, path, secrets)
  {
    hide IsDelivery, SecretAt;
    var fields, entries, below := field.kind.fields, Find(values, field.key).value.entries, ChildPath(path, field.key);
    var keys, p, r :| SecretAt(fields, entries, keys, p, r) && IsDelivery(d, below, keys, p, r, secrets);
    SameDelivery(d, path, field.key, keys, p, r, secrets);
    assert ([field.key] + keys)[1..] == keys;
    assert SecretIn(field, values, [field.key] + keys, p, r);
  }

  lemma DottedDeeper(path: string, key: string, keys: seq<string>)
    ensures Dotted(ChildPath(path, key), keys) == Dotted(path, [key] + keys)
  {
    assert ([key] + keys)[1..] == keys;
    assert path + "." + key + Suffix(keys) == path + ("." + key + Suffix(keys));
  }

  lemma SameDelivery(d: Delivery, path: string, key: string, keys: seq<string>, p: Purpose, r: string, secrets: Secrets)
    ensures IsDelivery(d, ChildPath(path, key), keys, p, r, secrets) <==> IsDelivery(d, path, [key] + keys, p, r, secrets)
  {
    DottedDeeper(path, key, keys);
    hide Dotted;
  }

  lemma {:induction false} AllFieldsDelivered(rules: Rules, fields: seq<Field>, values: seq<Entry>, path: string, secrets: Secrets)
    requires forall i :: 0 <= i < |fields| ==> ValidField(rules, fields[i])
    requires forall i :: 0 <= i < |fields| ==> NormalField(fields[i], Find(values, fields[i].key))
    ensures var d := ResolveFields(fields, values, path, secrets);
      && (d.Ok? ==> SecretsDelivered(fields, values, path, secrets, d.value))
      && (d.Err? ==> d.error.MissingSecret? && IsMissing(fields, values, d.error.reference, secrets))
    decreases fields
  {
    if fields != [] {
      var front, field := fields[..|fields| - 1], fields[|fields| - 1];
      assert fields == front + [field];
      AllFieldsDelivered(rules, front, values, path, secrets);
      OneFieldDelivered(rules, field, values, path, secrets);
      hide ResolveField, ValidField, NormalField, SecretsDelivered, FieldSecretsDelivered, SecretIn;
      var before := ResolveFields(front, values, path, secrets);
      SecretsOneMore(front, field, values);
      if before.Ok? && ResolveField(field, values, path, secrets).Ok? {
        DeliveredOneMore(front, field, values, path, secrets, before.value, ResolveField(field, values, path, secrets).value);
      }
      hide SecretAt;
    }
  }

  lemma SecretsOneMore(front: seq<Field>, field: Field, values: seq<Entry>)
    ensures forall keys, p, r :: SecretAt(front + [field], values, keys, p, r) <==>
              SecretAt(front, values, keys, p, r) || SecretIn(field, values, keys, p, r)
  {
    hide SecretIn;
    var all := front + [field];
    forall keys, p, r ensures SecretAt(all, values, keys, p, r) <==>
        SecretAt(front, values, keys, p, r) || SecretIn(field, values, keys, p, r) {
      if SecretIn(field, values, keys, p, r) { assert SecretIn(all[|front|], values, keys, p, r); }
      if i :| 0 <= i < |front| && SecretIn(front[i], values, keys, p, r) { assert SecretIn(all[i], values, keys, p, r); }
    }
  }

  lemma DeliveredOneMore(front: seq<Field>, field: Field, values: seq<Entry>, path: string, secrets: Secrets,
                         a: seq<Delivery>, b: seq<Delivery>)
    requires SecretsDelivered(front, values, path, secrets, a) && FieldSecretsDelivered(field, values, path, secrets, b)
    ensures SecretsDelivered(front + [field], values, path, secrets, a + b)
  {
    SecretsOneMore(front, field, values);
    hide SecretAt, SecretIn, IsDelivery;
    var all := a + b;
    forall keys, p, r | SecretAt(front + [field], values, keys, p, r)
      ensures IsAmong(all, path, keys, p, r, secrets)
    {
      if SecretAt(front, values, keys, p, r) {
        assert IsAmong(a, path, keys, p, r, secrets);
        var k :| 0 <= k < |a| && IsDelivery(a[k], path, keys, p, r, secrets);
        assert all[k] == a[k];
      } else {
        assert IsAmong(b, path, keys, p, r, secrets);
        var k :| 0 <= k < |b| && IsDelivery(b[k], path, keys, p, r, secrets);
        assert all[|a| + k] == b[k];
      }
    }
    forall k | 0 <= k < |all| ensures IsOfFields(all[k], front + [field], values, path, secrets) {
      if k < |a| {
        assert IsOfFields(a[k], front, values, path, secrets);
      } else {
        assert IsOfField(b[k - |a|], field, values, path, secrets);
      }
    }
  }

  // ----- Main results about resolution -----

  lemma {:induction false} DeliveredKeys(deliveries: seq<Delivery>, purpose: Purpose, path: string)
    ensures path in Delivered(deliveries, purpose) <==>
              exists k :: 0 <= k < |deliveries| && deliveries[k].purpose == purpose && deliveries[k].path == path
    ensures path in Delivered(deliveries, purpose) ==>
              exists k :: 0 <= k < |deliveries| && deliveries[k].purpose == purpose && deliveries[k].path == path
                          && deliveries[k].secret == Delivered(deliveries, purpose)[path]
  {
    if deliveries != [] { DeliveredKeys(deliveries[..|deliveries| - 1], purpose, path); }
  }

  /** For normalized settings resolution fails exactly when a present reference names no secret, and
      reports such a reference. */
  lemma FailsOnlyForMissingSecret(rules: Rules, fields: seq<Field>, settings: Json, secrets: Secrets)
    requires ValidFields(rules, fields) && NormalizeSettings(rules, fields, settings).Ok?
    ensures var normal := NormalizeSettings(rules, fields, settings).value;
      && normal.Object?
      && var d := ResolveFields(fields, normal.entries, "config", secrets);
         && (d.Err? <==> exists reference :: IsMissing(fields, normal.entries, reference, secrets))
         && (d.Err? ==> d.error.MissingSecret? && IsMissing(fields, normal.entries, d.error.reference, secrets))
  {
    NormalizedIsNormal(rules, fields, settings);
    var values := NormalizeSettings(rules, fields, settings).value.entries;
    AllFieldsDelivered(rules, fields, values, "config", secrets);
    var d := ResolveFields(fields, values, "config", secrets);
    hide NormalizeSettings, ValidFields, ResolveFields, SecretAt;
    if d.Ok? {
      forall reference ensures !IsMissing(fields, values, reference, secrets) {
        if keys, purpose :| SecretAt(fields, values, keys, purpose, reference) {
          assert IsAmong(d.value, "config", keys, purpose, reference, secrets);
        }
      }
    }
  }

  /** A successful resolution gives each consumer exactly the secrets of the references meant for it,
      under their dotted paths; the two sets share no path. */
  lemma SecretSetsAreExact(rules: Rules, fields: seq<Field>, settings: Json, secrets: Secrets)
    requires ValidFields(rules, fields) && NormalizeSettings(rules, fields, settings).Ok?
    ensures var normal := NormalizeSettings(rules, fields, settings).value;
      && normal.Object?
      && var d := ResolveFields(fields, normal.entries, "config", secrets);
         d.Ok? ==>
           && (forall purpose :: SetIsExact(fields, normal.entries, secrets, purpose, Delivered(d.value, purpose)))
           && Delivered(d.value, Factory).Keys !! Delivered(d.value, AgentInstance).Keys
  {
    NormalizedIsNormal(rules, fields, settings);
    var values := NormalizeSettings(rules, fields, settings).value.entries;
    AllFieldsDelivered(rules, fields, values, "config", secrets);
    var d := ResolveFields(fields, values, "config", secrets);
    hide NormalizeSettings, ResolveFields, Delivered, SetIsExact;
    if d.Ok? {
      forall purpose ensures SetIsExact(fields, values, secrets, purpose, Delivered(d.value, purpose)) {
        OneSetIsExact(rules, fields, values, secrets, d.value, purpose);
      }
      forall path | path in Delivered(d.value, Factory) && path in Delivered(d.value, AgentInstance) ensures false {
        PathOfBoth(rules, fields, values, secrets, d.value, path);
      }
    }
  }

  ghost predicate SetIsExact(fields: seq<Field>, values: seq<Entry>, secrets: Secrets, purpose: Purpose, delivered: Secrets) {
    && (forall path :: path in delivered ==>
          exists keys, reference :: SecretAt(fields, values, keys, purpose, reference) && path == Dotted("config", keys))
    && (forall keys, reference :: SecretAt(fields, values, keys, purpose, reference) ==>
          Known(reference, secrets) && Dotted("config", keys) in delivered
          && delivered[Dotted("config", keys)] == secrets[Referenced(reference)])
  }

  lemma OneSetIsExact(rules: Rules, fields: seq<Field>, values: seq<Entry>, secrets: Secrets, deliveries: seq<Delivery>, purpose: Purpose)
    requires ValidFields(rules, fields) && SecretsDelivered(fields, values, "config", secrets, deliveries)
    ensures SetIsExact(fields, values, secrets, purpose, Delivered(deliveries, purpose))
  {
    var delivered := Delivered(deliveries, purpose);
    hide ValidFields, SecretAt, Delivered, Dotted;
    forall path | path in delivered
      ensures exists keys, reference :: SecretAt(fields, values, keys, purpose, reference) && path == Dotted("config", keys)
    {
      DeliveredKeys(deliveries, purpose, path);
      var k :| 0 <= k < |deliveries| && deliveries[k].purpose == purpose && deliveries[k].path == path;
      assert IsOfFields(deliveries[k], fields, values, "config", secrets);
    }
    forall keys, reference | SecretAt(fields, values, keys, purpose, reference)
      ensures Known(reference, secrets) && Dotted("config", keys) in delivered
              && delivered[Dotted("config", keys)] == secrets[Referenced(reference)]
    {
      var path := Dotted("config", keys);
      assert IsAmong(deliveries, "config", keys, purpose, reference, secrets);
      DeliveredKeys(deliveries, purpose, path);
      var k :| 0 <= k < |deliveries| && deliveries[k].purpose == purpose && deliveries[k].path == path
               && deliveries[k].secret == delivered[path];
      assert IsOfFields(deliveries[k], fields, values, "config", secrets);
      var b, q, t :| SecretAt(fields, values, b, q, t) && IsDelivery(deliveries[k], "config", b, q, t, secrets);
      PathsDiffer(rules, fields, values, "config", keys, purpose, reference, b, q, t);
    }
  }

  lemma PathOfBoth(rules: Rules, fields: seq<Field>, values: seq<Entry>, secrets: Secrets, deliveries: seq<Delivery>, path: string)
    requires ValidFields(rules, fields) && SecretsDelivered(fields, values, "config", secrets, deliveries)
    requires path in Delivered(deliveries, Factory)
    ensures path !in Delivered(deliveries, AgentInstance)
  {
    OneSetIsExact(rules, fields, values, secrets, deliveries, Factory);
    OneSetIsExact(rules, fields, values, secrets, deliveries, AgentInstance);
    hide ValidFields, SecretAt, Delivered, Dotted;
    if path in Delivered(deliveries, AgentInstance) {
      var a, r :| SecretAt(fields, values, a, Factory, r) && path == Dotted("config", a);
      var b, t :| SecretAt(fields, values, b, AgentInstance, t) && path == Dotted("config", b);
      PathsDiffer(rules, fields, values, "config", a, Factory, r, b, AgentInstance, t);
    }
  }

  // ----- A repeated prefix -----

  /** The reference still starts with the prefix once it has been stripped. */
  predicate Repeats(reference: string) {
    StartsWithGame(reference) && StartsWithGame(Referenced(reference))
  }

  lemma StrippedKey(reference: string)
    requires StartsWithGame(reference) && ValidKey(TrimGame(reference))
    ensures ValidKey(Referenced(reference)) <==> !Repeats(reference)
    ensures !Repeats(reference) ==> Referenced(reference) == TrimGame(reference)
  {
    var name := Referenced(reference);
    if StartsWithGame(name) {
      assert name[4] == '.';
    } else {
      assert TrimGame(reference) == TrimGame(name) == name;
    }
  }

  /** Present references of normal settings are acceptable ones. */
  lemma {:induction false} SecretAtIsNormal(fields: seq<Field>, values: seq<Entry>, keys: seq<string>, purpose: Purpose, reference: string)
    requires Normal(fields, values) && SecretAt(fields, values, keys, purpose, reference)
    ensures StartsWithGame(reference) && ValidKey(TrimGame(reference))
    decreases |keys|
  {
    var i :| 0 <= i < |fields| && SecretIn(fields[i], values, keys, purpose, reference);
    assert NormalField(fields[i], Find(values, fields[i].key));
    hide ValidKey, TrimGame;
    if fields[i].kind.Record? {
      SecretAtIsNormal(fields[i].kind.fields, Find(values, keys[0]).value.entries, keys[1..], purpose, reference);
    }
  }

  ghost predicate NamesAreKeys(secrets: Secrets) { forall name :: name in secrets ==> ValidKey(name) }

  /** Every secret that acceptance had in mind is stored. */
  ghost predicate HoldsAccepted(fields: seq<Field>, values: seq<Entry>, secrets: Secrets) {
    forall keys, purpose, reference :: SecretAt(fields, values, keys, purpose, reference) ==> TrimGame(reference) in secrets
  }

  ghost predicate SomeRepeats(fields: seq<Field>, values: seq<Entry>) {
    exists keys, purpose, reference :: SecretAt(fields, values, keys, purpose, reference) && Repeats(reference)
  }

  /** Acceptance strips the prefix as often as it occurs, resolution only once. With a store whose names
      are valid keys and which holds every accepted secret, resolution fails exactly when some present
      reference repeats the prefix. */
  lemma FailsExactlyForRepeatedPrefix(rules: Rules, fields: seq<Field>, settings: Json, secrets: Secrets)
    requires ValidFields(rules, fields) && NormalizeSettings(rules, fields, settings).Ok? && NamesAreKeys(secrets)
    requires var normal := NormalizeSettings(rules, fields, settings).value;
      normal.Object? ==> HoldsAccepted(fields, normal.entries, secrets)
    ensures var normal := NormalizeSettings(rules, fields, settings).value;
      && normal.Object?
      && (ResolveFields(fields, normal.entries, "config", secrets).Err? <==> SomeRepeats(fields, normal.entries))
  {
    FailsOnlyForMissingSecret(rules, fields, settings, secrets);
    NormalizedIsNormal(rules, fields, settings);
    var values := NormalizeSettings(rules, fields, settings).value.entries;
    hide NormalizeSettings, ValidFields, ResolveFields, Normal, SecretAt, ValidKey, TrimGame, Repeats;
    forall keys, purpose, reference | SecretAt(fields, values, keys, purpose, reference)
      ensures StartsWithGame(reference) && (Known(reference, secrets) <==> !Repeats(reference))
    {
      SecretAtIsNormal(fields, values, keys, purpose, reference);
      StrippedKey(reference);
    }
    if SomeRepeats(fields, values) {
      var keys, purpose, reference :| SecretAt(fields, values, keys, purpose, reference) && Repeats(reference);
      assert IsMissing(fields, values, reference, secrets);
    }
  }

  /** A one-field definition whose accepted settings do not resolve although the secret is stored. */
  lemma RepeatedPrefixFails(rules: Rules) returns (fields: seq<Field>, settings: Json, secrets: Secrets)
    ensures ValidFields(rules, fields) && NormalizeSettings(rules, fields, settings) == Ok(settings) && settings.Object?
    ensures secrets == map["k" := "v"] && NamesAreKeys(secrets)
    ensures ResolveFields(fields, settings.entries, "config", secrets) == Err(MissingSecret("game.game.k"))
  {
    var field, entry := Field("key", SecretReference(Factory), false, Null), Entry("key", Text("game.game.k"));
    fields, settings, secrets := [field], Object([entry]), map["k" := "v"];
    assert TrimGame("game.game.k") == TrimGame("game.k") == TrimGame("k") == "k";
    assert ValidField(rules, field);
    assert Find([entry], "key") == Some(Text("game.game.k"));
    assert Declared(fields, "key") by { assert fields[0].key == "key"; }
    assert FirstUndeclared(fields, [entry]) == None by { assert [entry][1..] == []; }
    assert NormalizeValue(rules, field, Text("game.game.k"), ChildPath("config", "key")) == Ok(Text("game.game.k"));
    assert fields[..0] == [];
    assert NormalizeFields(rules, [], [entry], "config") == Ok([]);
    assert NormalizeFields(rules, fields, [entry], "config") == Ok([entry]);
    assert ResolveFields([], [entry], "config", secrets) == Ok([]);
    assert Referenced("game.game.k") == "game.k";
    assert ResolveField(field, [entry], "config", secrets) == Err(MissingSecret("game.game.k"));
  }
}

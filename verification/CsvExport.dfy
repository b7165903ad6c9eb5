/** Model of the CSV export in rust-server/src/app.rs, and a reader for the quoting rules of section 2
    of RFC 4180 with a line feed as record end. */
module CsvExport {
  import opened Wrappers
  import opened JsonValues

  // ----- The writer -----

  predicate NeedsQuotes(s: string) {
    exists i :: 0 <= i < |s| && s[i] in ",\"\n\r"
  }

  function DoubleQuotes(s: string): string {
    if s == "" then "" else (if s[0] == '\"' then "\"\"" else [s[0]]) + DoubleQuotes(s[1..])
  }

  function Escape(s: string): string {
    if NeedsQuotes(s) then "\"" + DoubleQuotes(s) + "\"" else s
  }

  function PrintFields(fields: seq<string>): string
    requires fields != []
  {
    if |fields| == 1 then Escape(fields[0]) else Escape(fields[0]) + "," + PrintFields(fields[1..])
  }

  function PrintRecords(records: seq<seq<string>>): string
    requires forall i :: 0 <= i < |records| ==> records[i] != []
  {
    if records == [] then "" else PrintFields(records[0]) + "\n" + PrintRecords(records[1..])
  }

  // ----- The reader -----

  /** The inside of a quoted field: its value, and the text after the closing quote. */
  function ReadQuoted(s: string): Option<(string, string)> {
    if s == "" then None
    else if s[0] != '\"' then
      var more := ReadQuoted(s[1..]);
      if more.None? then None else Some(([s[0]] + more.value.0, more.value.1))
    else if |s| >= 2 && s[1] == '\"' then
      var more := ReadQuoted(s[2..]);
      if more.None? then None else Some((['\"'] + more.value.0, more.value.1))
    else Some(("", s[1..]))
  }

  /** An unquoted field extends to the next comma or line feed and holds no quote and no return. */
  function ReadPlain(s: string): Option<(string, string)> {
    if s == "" || s[0] == ',' || s[0] == '\n' then Some(("", s))
    else if s[0] == '\"' || s[0] == '\r' then None
    else
      var more := ReadPlain(s[1..]);
      if more.None? then None else Some(([s[0]] + more.value.0, more.value.1))
  }

  function ReadField(s: string): Option<(string, string)> {
    if s != "" && s[0] == '\"' then ReadQuoted(s[1..]) else ReadPlain(s)
  }

  lemma {:induction false} FieldIsConsumed(s: string)
    ensures ReadQuoted(s).Some? ==> |ReadQuoted(s).value.1| < |s|
    ensures ReadPlain(s).Some? ==> |ReadPlain(s).value.1| <= |s|
  {
    if s != "" {
      FieldIsConsumed(s[1..]);
      if |s| >= 2 { FieldIsConsumed(s[2..]); }
    }
  }

  lemma FieldRest(s: string)
    ensures ReadField(s).Some? ==> |ReadField(s).value.1| <= |s|
  {
    FieldIsConsumed(s);
    if s != "" { FieldIsConsumed(s[1..]); }
  }

  function ReadRecord(s: string): (r: Option<(seq<string>, string)>)
    ensures r.Some? ==> |r.value.1| < |s|
    decreases |s|
  {
    FieldRest(s);
    var field := ReadField(s);
    if field.None? || field.value.1 == "" then None
    else
      var value, rest := field.value.0, field.value.1;
      if rest[0] == '\n' then Some(([value], rest[1..]))
      else if rest[0] != ',' then None
      else
        var more := ReadRecord(rest[1..]);
        if more.None? then None else Some(([value] + more.value.0, more.value.1))
  }

  function ReadRecords(s: string): Option<seq<seq<string>>>
    decreases |s|
  {
    if s == "" then Some([]) else
      var first := ReadRecord(s);
      if first.None? then None else
        var more := ReadRecords(first.value.1);
        if more.None? then None else Some([first.value.0] + more.value)
  }

  // ----- Round trip -----

  lemma {:induction false} ReadQuotedBack(s: string, rest: string)
    requires rest == "" || rest[0] != '\"'
    ensures ReadQuoted(DoubleQuotes(s) + "\"" + rest) == Some((s, rest))
  {
    if s == "" {
      assert DoubleQuotes(s) + "\"" + rest == "\"" + rest;
    } else {
      ReadQuotedBack(s[1..], rest);
      var tail := DoubleQuotes(s[1..]) + "\"" + rest;
      if s[0] == '\"' {
        assert DoubleQuotes(s) + "\"" + rest == ['\"', '\"'] + tail;
        assert (['\"', '\"'] + tail)[2..] == tail;
      } else {
        assert DoubleQuotes(s) + "\"" + rest == [s[0]] + tail;
      }
      assert [s[0]] + s[1..] == s;
    }
  }

  predicate EndsField(rest: string) { rest != "" && (rest[0] == ',' || rest[0] == '\n') }

  lemma TailNeedsQuotes(s: string)
    requires s != ""
    ensures NeedsQuotes(s[1..]) ==> NeedsQuotes(s)
  {
    if i :| 0 <= i < |s| - 1 && s[1..][i] in ",\"\n\r" { assert s[i + 1] in ",\"\n\r"; }
  }

  lemma {:induction false} ReadPlainBack(s: string, rest: string)
    requires !NeedsQuotes(s) && EndsField(rest)
    ensures ReadPlain(s + rest) == Some((s, rest))
  {
    if s == "" {
      assert s + rest == rest;
    } else {
      assert s[0] !in ",\"\n\r";
      TailNeedsQuotes(s);
      ReadPlainBack(s[1..], rest);
      assert (s + rest)[1..] == s[1..] + rest;
      assert [s[0]] + s[1..] == s;
    }
  }

  lemma FirstIsPlain(s: string)
    requires s != "" && !NeedsQuotes(s)
    ensures s[0] != '\"'
  {
    assert s[0] !in ",\"\n\r";
  }

  lemma ReadFieldBack(s: string, rest: string)
    requires EndsField(rest)
    ensures ReadField(Escape(s) + rest) == Some((s, rest))
  {
    hide NeedsQuotes, DoubleQuotes, ReadQuoted, ReadPlain;
    if NeedsQuotes(s) {
      ReadQuotedBack(s, rest);
      assert (Escape(s) + rest)[1..] == DoubleQuotes(s) + "\"" + rest;
    } else {
      ReadPlainBack(s, rest);
      if s != "" { FirstIsPlain(s); }
      assert Escape(s) + rest == s + rest;
    }
  }

  lemma ReadRecordLast(value: string, rest: string)
    ensures ReadRecord(Escape(value) + ("\n" + rest)) == Some(([value], rest))
  {
    var tail := "\n" + rest;
    assert tail[1..] == rest;
    ReadFieldBack(value, tail);
    hide Escape, ReadField;
  }

  lemma ReadRecordMore(value: string, line: string)
    requires ReadRecord(line).Some?
    ensures ReadRecord(Escape(value) + ("," + line)) ==
            Some(([value] + ReadRecord(line).value.0, ReadRecord(line).value.1))
  {
    var tail := "," + line;
    assert tail[1..] == line;
    ReadFieldBack(value, tail);
    hide Escape, ReadField;
  }

  lemma CommaLine(first: string, others: string, rest: string)
    ensures first + "," + others + "\n" + rest == first + ("," + (others + "\n" + rest))
  {
  }

  lemma {:induction false} ReadRecordBack(fields: seq<string>, rest: string)
    requires fields != []
    ensures ReadRecord(PrintFields(fields) + "\n" + rest) == Some((fields, rest))
  {
    hide Escape, ReadRecord;
    if |fields| == 1 {
      ReadRecordLast(fields[0], rest);
      assert Escape(fields[0]) + "\n" + rest == Escape(fields[0]) + ("\n" + rest);
      assert fields == [fields[0]];
    } else {
      var others := PrintFields(fields[1..]);
      ReadRecordBack(fields[1..], rest);
      ReadRecordMore(fields[0], others + "\n" + rest);
      CommaLine(Escape(fields[0]), others, rest);
      assert PrintFields(fields) == Escape(fields[0]) + "," + others;
      hide PrintFields;
      assert fields == [fields[0]] + fields[1..];
    }
  }

  lemma {:induction false} ReadRecordsBack(records: seq<seq<string>>)
    requires forall i :: 0 <= i < |records| ==> records[i] != []
    ensures ReadRecords(PrintRecords(records)) == Some(records)
  {
    hide PrintFields, ReadRecord;
    if records != [] {
      var rest := PrintRecords(records[1..]);
      ReadRecordsBack(records[1..]);
      ReadRecordBack(records[0], rest);
      assert PrintRecords(records) == PrintFields(records[0]) + "\n" + rest;
      assert records == [records[0]] + records[1..];
    }
  }

  // ----- The export -----

  /** One exported row. */
  datatype Row = Row(table: string, value: Json)

  const HEADER := "table,row_json\n"

  const TABLES := ["experiment", "participants", "sessions", "session_participants", "consent_declarations",
                   "session_events", "events", "messages"]

  const MANIFEST := ["export_schema_version", "export_variant", "release_status", "content_review_required",
                     "privacy_contract_version", "data_inventory"]

  function OrNull(v: Option<Json>): Json { if v.Some? then v.value else Null }

  function Manifest(exported: Json): Json {
    Object(seq(|MANIFEST|, i requires 0 <= i < |MANIFEST| => Entry(MANIFEST[i], OrNull(Get(exported, MANIFEST[i])))))
  }

  function Without(entries: seq<Entry>, key: string): seq<Entry> {
    if entries == [] then []
    else if entries[0].key == key then entries[1..]
    else [entries[0]] + Without(entries[1..], key)
  }

  function ItemRows(table: string, items: seq<Json>): seq<Row> {
    seq(|items|, i requires 0 <= i < |items| => Row(table, items[i]))
  }

  function TableRows(exported: Json, table: string): seq<Row> {
    var value := OrNull(Get(exported, table));
    if value.Array? then ItemRows(table, value.items)
    else if value == Null then []
    else [Row(table, value)]
  }

  function TablesRows(exported: Json, tables: seq<string>): seq<Row> {
    if tables == [] then [] else
      TablesRows(exported, tables[..|tables| - 1]) + TableRows(exported, tables[|tables| - 1])
  }

  /** A release has a manifest, the experiment without its sessions, and its sessions. */
  function ReleaseRows(exported: Json): seq<Row> {
    [Row("manifest", Manifest(exported))] + (
      var experiment := Get(exported, "experiment");
      if experiment.None? then [] else
        var e := experiment.value;
        var sessions := OrElse(Get(e, "sessions"), Some(Array([]))).value;
        [Row("experiment", if e.Object? then Object(Without(e.entries, "sessions")) else e)]
        + (if sessions.Array? then ItemRows("session", sessions.items) else []))
  }

  function ExportRows(exported: Json): seq<Row> {
    if Get(exported, "export_schema_version").Some? then ReleaseRows(exported) else TablesRows(exported, TABLES)
  }

  /** What a reader finds for these rows, with `text` for the JSON printer. */
  function Cells(rows: seq<Row>, text: Json -> string): (r: seq<seq<string>>)
    ensures |r| == |rows| && forall i :: 0 <= i < |r| ==> r[i] == [rows[i].table, text(rows[i].value)]
  {
    seq(|rows|, i requires 0 <= i < |rows| => [rows[i].table, text(rows[i].value)])
  }

  lemma {:induction false} PrintedTogether(a: seq<seq<string>>, b: seq<seq<string>>)
    requires forall i :: 0 <= i < |a| ==> a[i] != []
    requires forall i :: 0 <= i < |b| ==> b[i] != []
    ensures PrintRecords(a + b) == PrintRecords(a) + PrintRecords(b)
  {
    if a == [] {
      assert a + b == b;
    } else {
      PrintedTogether(a[1..], b);
      assert (a + b)[1..] == a[1..] + b && (a + b)[0] == a[0];
    }
  }

  function Printed(rows: seq<Row>, text: Json -> string): string { PrintRecords(Cells(rows, text)) }

  lemma PrintedOneMore(rows: seq<Row>, row: Row, text: Json -> string)
    ensures Printed(rows + [row], text) ==
            Printed(rows, text) + Escape(row.table) + "," + Escape(text(row.value)) + "\n"
  {
    var cells := [row.table, text(row.value)];
    assert Cells(rows + [row], text) == Cells(rows, text) + [cells];
    PrintedTogether(Cells(rows, text), [cells]);
    assert PrintFields(cells) == Escape(row.table) + "," + Escape(text(row.value));
    assert PrintRecords([cells]) == PrintFields(cells) + "\n";
  }

  lemma Reassociate(header: string, rows: string, table: string, value: string)
    ensures header + rows + table + "," + value + "\n" == header + (rows + table + "," + value + "\n")
  {
  }

  class CsvWriter {
    var output: string

    constructor ()
      ensures output == HEADER
    {
      output := HEADER;
    }

    /** `push_csv_row`. */
    method PushRow(row: Row, text: Json -> string, ghost before: seq<Row>)
      requires output == HEADER + Printed(before, text)
      modifies this
      ensures output == HEADER + Printed(before + [row], text)
    {
      PrintedOneMore(before, row, text);
      Reassociate(HEADER, Printed(before, text), Escape(row.table), Escape(text(row.value)));
      hide Printed, Escape;
      output := output + Escape(row.table);
      output := output + ",";
      output := output + Escape(text(row.value));
      output := output + "\n";
    }

    method PushItems(table: string, items: seq<Json>, text: Json -> string, ghost before: seq<Row>)
      requires output == HEADER + Printed(before, text)
      modifies this
      ensures output == HEADER + Printed(before + ItemRows(table, items), text)
    {
      var i := 0;
      assert before + ItemRows(table, items[..0]) == before;
      while i < |items|
        invariant 0 <= i <= |items|
        invariant output == HEADER + Printed(before + ItemRows(table, items[..i]), text)
      {
        PushRow(Row(table, items[i]), text, before + ItemRows(table, items[..i]));
        assert before + ItemRows(table, items[..i + 1]) == before + ItemRows(table, items[..i]) + [Row(table, items[i])];
        i := i + 1;
      }
      assert items[..i] == items;
    }
  }

  /** The branch of `export_csv` for a release. */
  method PushRelease(w: CsvWriter, exported: Json, text: Json -> string)
    requires w.output == HEADER + Printed([], text)
    modifies w
    ensures w.output == HEADER + Printed(ReleaseRows(exported), text)
  {
    hide Manifest, Printed, Without, Find;
    ghost var rows := [] + [Row("manifest", Manifest(exported))];
    w.PushRow(Row("manifest", Manifest(exported)), text, []);
    var experiment := Get(exported, "experiment");
    if experiment.Some? {
      var e := experiment.value;
      var sessions := OrElse(Get(e, "sessions"), Some(Array([]))).value;
      var metadata := if e.Object? then Object(Without(e.entries, "sessions")) else e;
      w.PushRow(Row("experiment", metadata), text, rows);
      if sessions.Array? {
        w.PushItems("session", sessions.items, text, rows + [Row("experiment", metadata)]);
        assert rows + [Row("experiment", metadata)] + ItemRows("session", sessions.items) == ReleaseRows(exported);
      } else {
        assert rows + [Row("experiment", metadata)] == ReleaseRows(exported);
      }
    } else {
      assert rows == ReleaseRows(exported);
    }
  }

  /** The branch of `export_csv` for an export without a schema version. */
  method PushTables(w: CsvWriter, exported: Json, text: Json -> string)
    requires w.output == HEADER + Printed([], text)
    modifies w
    ensures w.output == HEADER + Printed(TablesRows(exported, TABLES), text)
  {
    hide Printed, Find;
    var t := 0;
    while t < |TABLES|
      invariant 0 <= t <= |TABLES|
      invariant w.output == HEADER + Printed(TablesRows(exported, TABLES[..t]), text)
    {
      var table := TABLES[t];
      var value := OrNull(Get(exported, table));
      ghost var before := TablesRows(exported, TABLES[..t]);
      assert TABLES[..t + 1][..t] == TABLES[..t];
      assert TablesRows(exported, TABLES[..t + 1]) == before + TableRows(exported, table);
      if value.Array? {
        w.PushItems(table, value.items, text, before);
      } else if value != Null {
        w.PushRow(Row(table, value), text, before);
      } else {
        assert before + [] == before;
      }
      t := t + 1;
    }
    assert TABLES[..t] == TABLES;
  }

  /** `export_csv`: a reader gets back the header and exactly the exported rows. */
  method ExportCsv(exported: Json, text: Json -> string) returns (csv: string)
    ensures csv == HEADER + Printed(ExportRows(exported), text)
    ensures ReadRecords(csv) == Some([["table", "row_json"]] + Cells(ExportRows(exported), text))
  {
    var w := new CsvWriter();
    assert HEADER + Printed([], text) == HEADER;
    if Get(exported, "export_schema_version").Some? {
      PushRelease(w, exported, text);
    } else {
      PushTables(w, exported, text);
    }
    csv := w.output;
    ReadBack(ExportRows(exported), text);
  }

  lemma HeaderPrinted()
    ensures PrintRecords([["table", "row_json"]]) == HEADER
  {
    assert !NeedsQuotes("table") && !NeedsQuotes("row_json");
    hide NeedsQuotes;
    assert PrintFields(["table", "row_json"]) == "table" + "," + "row_json";
  }

  /** The reader inverts the printer, whatever characters the rows hold. */
  lemma ReadBack(rows: seq<Row>, text: Json -> string)
    ensures ReadRecords(HEADER + Printed(rows, text)) == Some([["table", "row_json"]] + Cells(rows, text))
  {
    var header := [["table", "row_json"]];
    HeaderPrinted();
    hide PrintRecords, ReadRecords;
    ReadRecordsBack(header + Cells(rows, text));
    PrintedTogether(header, Cells(rows, text));
  }

  // ----- Which rows are exported -----

  /** A field is written as it is exactly when it holds no comma, quote, line feed or return. */
  lemma WrittenAsItIs(s: string)
    ensures Escape(s) == s <==> ',' !in s && '\"' !in s && '\n' !in s && '\r' !in s
  {
    if NeedsQuotes(s) {
      LongerDoubled(s);
    } else {
      forall c | c in s ensures c !in ",\"\n\r" {
        var i :| 0 <= i < |s| && s[i] == c;
      }
    }
  }

  lemma {:induction false} LongerDoubled(s: string)
    ensures |DoubleQuotes(s)| >= |s|
  {
    if s != "" { LongerDoubled(s[1..]); }
  }

  /** The values exported for one table, in order. */
  function RowsOf(rows: seq<Row>, table: string): seq<Json> {
    if rows == [] then [] else
      var last := rows[|rows| - 1];
      RowsOf(rows[..|rows| - 1], table) + if last.table == table then [last.value] else []
  }

  /** A table's values: the items of an array, nothing for a missing or null one, else the value itself. */
  function ValuesOf(exported: Json, table: string): seq<Json> {
    match Get(exported, table)
    case None => []
    case Some(v) => if v.Array? then v.items else if v == Null then [] else [v]
  }

  lemma {:induction false} RowsOfAppend(a: seq<Row>, b: seq<Row>, table: string)
    ensures RowsOf(a + b, table) == RowsOf(a, table) + RowsOf(b, table)
  {
    if b == [] {
      assert a + b == a;
    } else {
      assert (a + b)[..|a + b| - 1] == a + b[..|b| - 1];
      RowsOfAppend(a, b[..|b| - 1], table);
    }
  }

  lemma {:induction false} RowsOfItems(name: string, items: seq<Json>, table: string)
    ensures RowsOf(ItemRows(name, items), table) == if name == table then items else []
  {
    if items != [] {
      var front := items[..|items| - 1];
      RowsOfItems(name, front, table);
      assert ItemRows(name, items)[..|items| - 1] == ItemRows(name, front);
      assert items == front + [items[|items| - 1]];
    }
  }

  lemma RowsOfTable(exported: Json, name: string, table: string)
    ensures RowsOf(TableRows(exported, name), table) == if name == table then ValuesOf(exported, name) else []
  {
    var v := OrNull(Get(exported, name));
    if v.Array? {
      RowsOfItems(name, v.items, table);
    } else if v != Null {
      assert [Row(name, v)] == ItemRows(name, [v]);
      RowsOfItems(name, [v], table);
    }
    hide Get;
  }

  predicate Distinct(tables: seq<string>) { forall i, j :: 0 <= i < j < |tables| ==> tables[i] != tables[j] }

  lemma LastIsNew(tables: seq<string>)
    requires tables != [] && Distinct(tables)
    ensures tables[|tables| - 1] !in tables[..|tables| - 1] && Distinct(tables[..|tables| - 1])
  {
    var front := tables[..|tables| - 1];
    assert forall i :: 0 <= i < |front| ==> front[i] == tables[i];
  }

  lemma {:induction false} RowsOfTables(exported: Json, tables: seq<string>, table: string)
    requires Distinct(tables)
    ensures RowsOf(TablesRows(exported, tables), table) == if table in tables then ValuesOf(exported, table) else []
  {
    hide RowsOf, ValuesOf, TableRows;
    if tables != [] {
      var front, name := tables[..|tables| - 1], tables[|tables| - 1];
      RowsOfTables(exported, front, table);
      RowsOfAppend(TablesRows(exported, front), TableRows(exported, name), table);
      RowsOfTable(exported, name, table);
      assert tables == front + [name];
      assert table in tables <==> table in front || table == name;
      LastIsNew(tables);
      assert TablesRows(exported, tables) == TablesRows(exported, front) + TableRows(exported, name);
    } else {
      NoRowsOf(table);
    }
  }

  lemma NoRowsOf(table: string)
    ensures RowsOf([], table) == []
  {
  }

  function IndexOf(tables: seq<string>, table: string): nat {
    if tables == [] || tables[|tables| - 1] == table then (if tables == [] then 0 else |tables| - 1)
    else IndexOf(tables[..|tables| - 1], table)
  }

  ghost predicate InTableOrder(rows: seq<Row>, tables: seq<string>) {
    && (forall i :: 0 <= i < |rows| ==> rows[i].table in tables)
    && (forall i, j :: 0 <= i < j < |rows| ==> IndexOf(tables, rows[i].table) <= IndexOf(tables, rows[j].table))
  }

  lemma {:induction false} IndexInFront(tables: seq<string>, table: string)
    requires tables != [] && Distinct(tables) && table in tables[..|tables| - 1]
    ensures IndexOf(tables, table) == IndexOf(tables[..|tables| - 1], table) < |tables| - 1
  {
    var front := tables[..|tables| - 1];
    if front[|front| - 1] != table {
      assert front == front[..|front| - 1] + [front[|front| - 1]];
      IndexInFront(front, table);
    }
  }

  lemma {:induction false} TablesInOrder(exported: Json, tables: seq<string>)
    requires Distinct(tables)
    ensures InTableOrder(TablesRows(exported, tables), tables)
  {
    if tables != [] {
      var front, name := tables[..|tables| - 1], tables[|tables| - 1];
      var rows, last := TablesRows(exported, front), TableRows(exported, name);
      TablesInOrder(exported, front);
      assert forall i :: 0 <= i < |last| ==> last[i].table == name;
      assert IndexOf(tables, name) == |tables| - 1;
      forall i | 0 <= i < |rows| ensures IndexOf(tables, rows[i].table) == IndexOf(front, rows[i].table) < |tables| - 1 {
        IndexInFront(tables, rows[i].table);
      }
      hide IndexOf, TableRows;
      assert TablesRows(exported, tables) == rows + last;
      assert forall i :: 0 <= i < |rows| + |last| ==>
          (rows + last)[i] == if i < |rows| then rows[i] else last[i - |rows|];
    }
  }

  /** An export without a schema version: table by table in the fixed order, each table's values in their
      order, and nothing else. */
  lemma ExportedTables(exported: Json)
    requires Get(exported, "export_schema_version").None?
    ensures var rows := ExportRows(exported);
      InTableOrder(rows, TABLES) && forall table :: table in TABLES ==> RowsOf(rows, table) == ValuesOf(exported, table)
  {
    TablesInOrder(exported, TABLES);
    hide InTableOrder, RowsOf, ValuesOf, TablesRows;
    forall table | table in TABLES ensures RowsOf(ExportRows(exported), table) == ValuesOf(exported, table) {
      RowsOfTables(exported, TABLES, table);
    }
  }

  lemma {:induction false} FindWithout(entries: seq<Entry>, key: string, other: string)
    requires DistinctKeys(entries)
    ensures Find(Without(entries, key), other) == if other == key then None else Find(entries, other)
  {
    if entries != [] {
      if entries[0].key == key {
        if other == key { NotInTail(entries); }
      } else {
        FindWithout(entries[1..], key, other);
      }
    }
  }

  lemma {:induction false} NotFound(entries: seq<Entry>, key: string)
    requires forall i :: 0 <= i < |entries| ==> entries[i].key != key
    ensures Find(entries, key) == None
  {
    if entries != [] { NotFound(entries[1..], key); }
  }

  lemma NotInTail(entries: seq<Entry>)
    requires entries != [] && DistinctKeys(entries)
    ensures Find(entries[1..], entries[0].key) == None
  {
    NotFound(entries[1..], entries[0].key);
  }

  lemma {:induction false} FindAt(entries: seq<Entry>, i: nat)
    requires DistinctKeys(entries) && i < |entries|
    ensures Find(entries, entries[i].key) == Some(entries[i].value)
  {
    if i > 0 { FindAt(entries[1..], i - 1); }
  }

  lemma ManifestHolds(exported: Json, i: nat)
    requires i < |MANIFEST|
    ensures Get(Manifest(exported), MANIFEST[i]) == Some(OrNull(Get(exported, MANIFEST[i])))
  {
    var entries := Manifest(exported).entries;
    assert entries[i].key == MANIFEST[i];
    hide Find;
    FindAt(entries, i);
  }

  /** A release: first the manifest fields, missing ones as null; then the experiment without its sessions;
      then its sessions, in order. */
  lemma ExportedRelease(exported: Json)
    requires Get(exported, "export_schema_version").Some? && WellFormed(exported)
    ensures var rows, experiment := ExportRows(exported), Get(exported, "experiment");
      && |rows| >= 1 && rows[0].table == "manifest" && rows[0].value.Object? && |rows[0].value.entries| == |MANIFEST|
      && (forall i :: 0 <= i < |MANIFEST| ==> Get(rows[0].value, MANIFEST[i]) == Some(OrNull(Get(exported, MANIFEST[i]))))
      && (experiment.None? ==> |rows| == 1)
      && (experiment.Some? ==>
            var e, sessions := experiment.value, Get(experiment.value, "sessions");
            && |rows| >= 2 && rows[1].table == "experiment" && (!e.Object? ==> rows[1].value == e)
            && (e.Object? ==> rows[1].value.Object? && Get(rows[1].value, "sessions") == None)
            && (e.Object? ==> forall key :: key != "sessions" ==> Get(rows[1].value, key) == Get(e, key))
            && rows[2..] == if sessions.Some? && sessions.value.Array? then ItemRows("session", sessions.value.items) else [])
  {
    forall i | 0 <= i < |MANIFEST| ensures Get(Manifest(exported), MANIFEST[i]) == Some(OrNull(Get(exported, MANIFEST[i]))) {
      ManifestHolds(exported, i);
    }
    var experiment := Get(exported, "experiment");
    if experiment.Some? && experiment.value.Object? {
      FoundIsWellFormed(exported.entries, "experiment");
      var entries := experiment.value.entries;
      forall key ensures Find(Without(entries, "sessions"), key) == if key == "sessions" then None else Find(entries, key) {
        FindWithout(entries, "sessions", key);
      }
      hide Find, Without;
    }
    hide Manifest, Find, Without, WellFormed;
  }

  lemma {:induction false} FoundIsWellFormed(entries: seq<Entry>, key: string)
    requires forall e :: e in entries ==> WellFormed(e.value)
    ensures Find(entries, key).Some? ==> WellFormed(Find(entries, key).value)
  {
    hide WellFormed;
    if entries != [] && entries[0].key != key {
      assert forall e :: e in entries[1..] ==> e in entries;
      FoundIsWellFormed(entries[1..], key);
    }
  }
}

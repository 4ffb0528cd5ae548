/** The CSV import dialog: a naive line-and-comma parser (not RFC 4180: every
    comma separates and every double quote is dropped), the automatic mapping
    of CSV headers to table columns, its validation, and the records the
    import inserts. */
module CsvImport {
  import opened Common

  // ---------------------------------------------------------------- parsing

  /** `text.split('\n').filter(line => line.trim())`: the lines that are not blank. */
  function CsvLines(text: string): (r: seq<string>)
    ensures forall l :: l in r <==> l in Split(text, '\n') && Trim(l) != ""
    ensures forall l :: l in r ==> '\n' !in l
  {
    Filter(Split(text, '\n'), (l: string) => Trim(l) != "")
  }

  /** One header or value: trimmed, then stripped of every double quote. */
  function CleanField(raw: string): (r: string)
    ensures '"' !in r
    ensures |r| <= |raw|
    ensures '"' !in raw ==> r == Trim(raw)
  {
    RemoveChar(Trim(raw), '"')
  }

  /** Each piece cleaned, in order. */
  function CleanFields(parts: seq<string>): seq<string> {
    seq(|parts|, i requires 0 <= i < |parts| => CleanField(parts[i]))
  }

  /** The fields of a line: the pieces between commas, each cleaned. */
  function LineFields(line: string): (r: seq<string>)
    ensures |r| == |Split(line, ',')| && |r| >= 1
    ensures forall i :: 0 <= i < |r| ==> '"' !in r[i]
  {
    CleanFields(Split(line, ','))
  }

  /** `values[index] || ''`: the value at a position, or '' past the end. */
  function Cell(values: seq<string>, i: nat): string {
    if i < |values| then values[i] else ""
  }

  /** The row object the header loop fills: each header in turn is assigned
      the value at its position, so a repeated header keeps its last value. */
  function RowOf(headers: seq<string>, values: seq<string>): map<string, string>
    decreases |headers|
  {
    if headers == [] then map[]
    else RowOf(headers[..|headers| - 1], values)[headers[|headers| - 1] := Cell(values, |headers| - 1)]
  }

  /** A row has exactly the headers as keys. */
  lemma {:induction false} RowKeys(headers: seq<string>, values: seq<string>)
    ensures RowOf(headers, values).Keys == set h | h in headers
  {
    if headers != [] {
      var init := headers[..|headers| - 1];
      RowKeys(init, values);
      assert headers == init + [headers[|headers| - 1]];
    }
  }

  /** Under a header that does not occur again later, the row holds the value
      at that header's position ('' when the line is too short); surplus
      values appear nowhere. */
  lemma {:induction false} RowValue(headers: seq<string>, values: seq<string>, i: nat)
    requires i < |headers|
    requires forall j :: i < j < |headers| ==> headers[j] != headers[i]
    ensures headers[i] in RowOf(headers, values)
    ensures RowOf(headers, values)[headers[i]] == Cell(values, i)
  {
    var n := |headers| - 1;
    if i < n {
      var init := headers[..n];
      RowValue(init, values, i);
    }
  }

  /** The header loop of parseCSV (`headers.forEach`). */
  method BuildRow(headers: seq<string>, values: seq<string>) returns (row: map<string, string>)
    ensures row == RowOf(headers, values)
  {
    row := map[];
    var i := 0;
    while i < |headers|
      invariant 0 <= i <= |headers|
      invariant row == RowOf(headers[..i], values)
    {
      assert headers[..i + 1][..i] == headers[..i];
      row := row[headers[i] := Cell(values, i)];
      i := i + 1;
    }
    assert headers[..|headers|] == headers;
  }

  /** One row per line, built from the line's fields as `fields` gives them. */
  function RowsWith(headers: seq<string>, lines: seq<string>, fields: string -> seq<string>): (r: seq<map<string, string>>)
    ensures |r| == |lines|
    ensures forall k :: 0 <= k < |lines| ==> r[k] == RowOf(headers, fields(lines[k]))
  {
    if lines == [] then []
    else
      var rest := RowsWith(headers, lines[1..], fields);
      var r := [RowOf(headers, fields(lines[0]))] + rest;
      assert forall k :: 1 <= k < |r| ==> r[k] == rest[k - 1] && lines[k] == lines[1..][k - 1];
      r
  }

  /** The rows of parseCSV: one per line, from that line's fields. */
  function RowsOf(headers: seq<string>, lines: seq<string>): (r: seq<map<string, string>>)
    ensures |r| == |lines|
    ensures forall k :: 0 <= k < |lines| ==> r[k] == RowOf(headers, LineFields(lines[k]))
  {
    RowsWith(headers, lines, LineFields)
  }

  datatype Parsed = Parsed(headers: seq<string>, data: seq<map<string, string>>)

  const NoHeaderLine := "Cannot read properties of undefined (reading 'split')"

  /** parseCSV: the first non-blank line gives the headers and every later one
      a row. With no non-blank line at all the code reads a field of an
      undefined first line and throws. */
  function ParseSpec(text: string): Result<Parsed> {
    var lines := CsvLines(text);
    if lines == [] then Err(NoHeaderLine)
    else
      var headers := LineFields(lines[0]);
      Ok(Parsed(headers, RowsOf(headers, lines[1..])))
  }

  /** The line map of parseCSV, one row per line. */
  method BuildRows(headers: seq<string>, lines: seq<string>) returns (data: seq<map<string, string>>)
    ensures data == RowsOf(headers, lines)
  {
    data := [];
    var k := 0;
    while k < |lines|
      invariant 0 <= k <= |lines|
      invariant data == RowsOf(headers, lines[..k])
    {
      var row := BuildRow(headers, LineFields(lines[k]));
      RowsOfPrefix(headers, lines, k);
      data := data + [row];
      k := k + 1;
    }
    assert lines[..|lines|] == lines;
  }

  /** parseCSV with its loops. */
  method ParseCsv(text: string) returns (r: Result<Parsed>)
    ensures r == ParseSpec(text)
  {
    var lines := CsvLines(text);
    if lines == [] {
      return Err(NoHeaderLine);
    }
    var headers := LineFields(lines[0]);
    var data := BuildRows(headers, lines[1..]);
    r := Ok(Parsed(headers, data));
  }

  lemma RowsWithPrefix(headers: seq<string>, lines: seq<string>, k: nat, fields: string -> seq<string>)
    requires k < |lines|
    ensures RowsWith(headers, lines[..k + 1], fields) ==
            RowsWith(headers, lines[..k], fields) + [RowOf(headers, fields(lines[k]))]
  {
    assert lines[..k + 1] == lines[..k] + [lines[k]];
    RowsWithAppend(headers, lines[..k], [lines[k]], fields);
  }

  lemma RowsOfPrefix(headers: seq<string>, lines: seq<string>, k: nat)
    requires k < |lines|
    ensures RowsOf(headers, lines[..k + 1]) == RowsOf(headers, lines[..k]) + [RowOf(headers, LineFields(lines[k]))]
  {
    RowsWithPrefix(headers, lines, k, LineFields);
  }

  lemma {:induction false} RowsWithAppend(headers: seq<string>, a: seq<string>, b: seq<string>,
                                         fields: string -> seq<string>)
    ensures RowsWith(headers, a + b, fields) == RowsWith(headers, a, fields) + RowsWith(headers, b, fields)
  {
    if a == [] {
      assert a + b == b;
    } else {
      assert (a + b)[0] == a[0];
      assert (a + b)[1..] == a[1..] + b;
      RowsWithAppend(headers, a[1..], b, fields);
    }
  }

  lemma RowsOfAppend(headers: seq<string>, a: seq<string>, b: seq<string>)
    ensures RowsOf(headers, a + b) == RowsOf(headers, a) + RowsOf(headers, b)
  {
    RowsWithAppend(headers, a, b, LineFields);
  }

  /** The shape of a parse: it fails exactly when every line is blank;
      otherwise there is one row per non-blank line after the header line, no
      header contains a double quote, and every row has exactly the headers as
      keys, each holding the value at its position. */
  lemma ParseShape(text: string)
    ensures ParseSpec(text).Err? <==> CsvLines(text) == []
    ensures ParseSpec(text).Ok? ==>
              var p := ParseSpec(text).value;
              |p.data| == |CsvLines(text)| - 1 &&
              (forall h :: h in p.headers ==> '"' !in h) &&
              forall k :: 0 <= k < |p.data| ==> p.data[k].Keys == set h | h in p.headers
  {
    var lines := CsvLines(text);
    if lines != [] {
      var p := ParseSpec(text).value;
      forall k | 0 <= k < |p.data| ensures p.data[k].Keys == set h | h in p.headers {
        RowKeys(p.headers, LineFields(lines[1..][k]));
      }
    }
  }

  /** A quoted field without inner quotes comes out as exactly what is
      between the quotes, surrounding spaces included: the trim happens before
      the quotes are removed, when the quotes still shield the spaces, so
      `" a "` gives ` a `. (handleImport trims the values again; a header
      keeps them.) */
  lemma QuotedFieldKeepsInnerSpaces(x: string)
    requires '"' !in x
    ensures CleanField("\"" + x + "\"") == x
  {
    var s := "\"" + x + "\"";
    assert s[0] == '"' && s[|s| - 1] == '"';
    assert TrimStart(s) == s;
    assert TrimEnd(s) == s;
    RemoveCharAppend("\"" + x, "\"", '"');
    RemoveCharAppend("\"", x, '"');
    assert RemoveChar("\"", '"') == [];
  }

  // ---------------------------------------------------------------- column mapping

  datatype TableName = DesignIdeas | NewProductIdeas

  datatype TableColumn = TableColumn(key: string, caption: string, required: bool)

  /** TABLE_COLUMNS: the same four columns for both tables. */
  function TableColumns(t: TableName): (cols: seq<TableColumn>)
    ensures |cols| == 4
    ensures forall i :: 0 <= i < |cols| ==> (cols[i].required <==> cols[i].key in {"name", "product_type"})
  {
    [ TableColumn("name", "Name", true),
      TableColumn("product_type", "Product Type", true),
      TableColumn("collection_targeting", "Collection/Targeting", false),
      TableColumn("description", "Description", false) ]
  }

  datatype Mapping = Mapping(csvColumn: string, tableColumn: string)

  predicate HeaderMatches(h: string, key: string) {
    Contains(ToLower(h), ToLower(key))
  }

  /** `headers.find(h => h.toLowerCase().includes(key.toLowerCase())) || ''`. */
  function FindHeader(headers: seq<string>, key: string): (r: string)
    ensures r != "" ==> r in headers && HeaderMatches(r, key)
    ensures (forall h :: h in headers ==> !HeaderMatches(h, key)) ==> r == ""
    ensures forall i :: (0 <= i < |headers| && HeaderMatches(headers[i], key) &&
              forall j :: 0 <= j < i ==> !HeaderMatches(headers[j], key)) ==> r == headers[i]
  {
    if headers == [] then ""
    else if HeaderMatches(headers[0], key) then headers[0]
    else
      var r := FindHeader(headers[1..], key);
      assert forall i :: 1 <= i < |headers| ==> headers[i] == headers[1..][i - 1];
      r
  }

  function MappingsFor(cols: seq<TableColumn>, headers: seq<string>): (r: seq<Mapping>)
    ensures |r| == |cols|
    ensures forall i :: 0 <= i < |cols| ==>
              r[i].tableColumn == cols[i].key && r[i].csvColumn == FindHeader(headers, cols[i].key)
  {
    if cols == [] then []
    else [Mapping(FindHeader(headers, cols[0].key), cols[0].key)] + MappingsFor(cols[1..], headers)
  }

  /** The mappings set up after a file is read: one per table column, in
      table-column order, each with the first header that contains the
      column's key (ignoring case), or '' when none does. */
  function InitialMappings(t: TableName, headers: seq<string>): (r: seq<Mapping>)
    ensures |r| == |TableColumns(t)|
    ensures forall i :: 0 <= i < |r| ==>
              r[i].tableColumn == TableColumns(t)[i].key && r[i].csvColumn == FindHeader(headers, r[i].tableColumn)
  {
    MappingsFor(TableColumns(t), headers)
  }

  /** handleColumnMappingChange: only the entries for that table column change. */
  function ChangeMapping(ms: seq<Mapping>, tableColumn: string, csvColumn: string): (r: seq<Mapping>)
    ensures |r| == |ms|
    ensures forall i :: 0 <= i < |ms| ==> r[i].tableColumn == ms[i].tableColumn
    ensures forall i :: 0 <= i < |ms| ==>
              r[i].csvColumn == if ms[i].tableColumn == tableColumn then csvColumn else ms[i].csvColumn
  {
    if ms == [] then []
    else
      var rest := ChangeMapping(ms[1..], tableColumn, csvColumn);
      var r := [if ms[0].tableColumn == tableColumn then ms[0].(csvColumn := csvColumn) else ms[0]] + rest;
      assert forall i :: 1 <= i < |r| ==> r[i] == rest[i - 1] && ms[i] == ms[1..][i - 1];
      r
  }

  /** Some mapping for the column names a CSV column. */
  predicate Mapped(ms: seq<Mapping>, key: string) {
    exists j :: 0 <= j < |ms| && ms[j].tableColumn == key && ms[j].csvColumn != ""
  }

  function AllRequiredMapped(cols: seq<TableColumn>, ms: seq<Mapping>): (ok: bool)
    ensures ok <==> forall i :: 0 <= i < |cols| && cols[i].required ==> Mapped(ms, cols[i].key)
  {
    if cols == [] then true
    else
      var rest := AllRequiredMapped(cols[1..], ms);
      assert forall i :: 1 <= i < |cols| ==> cols[i] == cols[1..][i - 1];
      (!cols[0].required || Mapped(ms, cols[0].key)) && rest
  }

  /** validateMappings: every required column has a CSV column. */
  function ValidateMappings(t: TableName, ms: seq<Mapping>): (ok: bool)
    ensures ok <==> Mapped(ms, "name") && Mapped(ms, "product_type")
  {
    var cols := TableColumns(t);
    assert cols[0].key == "name" && cols[1].key == "product_type";
    AllRequiredMapped(cols, ms)
  }

  /** Changing one mapping leaves whether any other column is mapped as it was. */
  lemma ChangeMappingKeepsOthers(ms: seq<Mapping>, tableColumn: string, csvColumn: string, key: string)
    requires key != tableColumn
    ensures Mapped(ChangeMapping(ms, tableColumn, csvColumn), key) <==> Mapped(ms, key)
  {
    var r := ChangeMapping(ms, tableColumn, csvColumn);
    if Mapped(ms, key) {
      var j :| 0 <= j < |ms| && ms[j].tableColumn == key && ms[j].csvColumn != "";
      assert r[j].tableColumn == key && r[j].csvColumn != "";
    }
    if Mapped(r, key) {
      var j :| 0 <= j < |r| && r[j].tableColumn == key && r[j].csvColumn != "";
      assert ms[j].tableColumn == key && ms[j].csvColumn != "";
    }
  }

  /** Choosing a CSV column for an entry that exists makes that column mapped. */
  lemma ChangeMappingMaps(ms: seq<Mapping>, tableColumn: string, csvColumn: string)
    requires csvColumn != ""
    requires exists j :: 0 <= j < |ms| && ms[j].tableColumn == tableColumn
    ensures Mapped(ChangeMapping(ms, tableColumn, csvColumn), tableColumn)
  {
    var r := ChangeMapping(ms, tableColumn, csvColumn);
    var j :| 0 <= j < |ms| && ms[j].tableColumn == tableColumn;
    assert r[j].tableColumn == tableColumn && r[j].csvColumn == csvColumn;
  }

  // ---------------------------------------------------------------- import

  /** The value a mapping takes from a row: the trimmed cell, or null when the
      row has no such column or the cell is blank. */
  function MappedValue(row: map<string, string>, csvColumn: string): (v: Option<string>)
    ensures v.Some? ==> csvColumn in row && v.value == Trim(row[csvColumn]) && v.value != ""
    ensures v.None? ==> csvColumn !in row || Trim(row[csvColumn]) == ""
  {
    if csvColumn in row && Trim(row[csvColumn]) != "" then Some(Trim(row[csvColumn])) else None
  }

  /** The record inserted for a row: user_id, then for each mapping with both a
      CSV and a table column, in order, that column's value. */
  function RecordOf(row: map<string, string>, ms: seq<Mapping>, userId: string): map<string, Option<string>>
    decreases |ms|
  {
    if ms == [] then map["user_id" := Some(userId)]
    else
      var m := ms[|ms| - 1];
      var init := RecordOf(row, ms[..|ms| - 1], userId);
      if m.csvColumn != "" && m.tableColumn != "" then init[m.tableColumn := MappedValue(row, m.csvColumn)]
      else init
  }

  predicate Active(m: Mapping) {
    m.csvColumn != "" && m.tableColumn != ""
  }

  /** The record's keys are user_id and the table columns of the mappings
      that name both columns. */
  lemma {:induction false} RecordKeys(row: map<string, string>, ms: seq<Mapping>, userId: string)
    ensures RecordOf(row, ms, userId).Keys == {"user_id"} + set j | 0 <= j < |ms| && Active(ms[j]) :: ms[j].tableColumn
  {
    if ms != [] {
      var init := ms[..|ms| - 1];
      RecordKeys(row, init, userId);
      var all := set j | 0 <= j < |ms| && Active(ms[j]) :: ms[j].tableColumn;
      var before := set j | 0 <= j < |init| && Active(init[j]) :: init[j].tableColumn;
      assert forall j :: 0 <= j < |init| ==> init[j] == ms[j];
      if Active(ms[|ms| - 1]) {
        assert all == before + {ms[|ms| - 1].tableColumn};
      } else {
        assert all == before;
      }
    }
  }

  /** Under a table column that no later mapping names (and that is not
      user_id), the record holds the mapped value of that mapping's CSV column. */
  lemma {:induction false} RecordValue(row: map<string, string>, ms: seq<Mapping>, userId: string, i: nat)
    requires i < |ms| && Active(ms[i]) && ms[i].tableColumn != "user_id"
    requires forall j :: i < j < |ms| ==> ms[j].tableColumn != ms[i].tableColumn
    ensures ms[i].tableColumn in RecordOf(row, ms, userId)
    ensures RecordOf(row, ms, userId)[ms[i].tableColumn] == MappedValue(row, ms[i].csvColumn)
  {
    var n := |ms| - 1;
    if i < n {
      RecordValue(row, ms[..n], userId, i);
    }
  }

  /** When no mapping targets user_id, every record carries the signed-in user. */
  lemma {:induction false} RecordHasUser(row: map<string, string>, ms: seq<Mapping>, userId: string)
    requires forall j :: 0 <= j < |ms| ==> ms[j].tableColumn != "user_id"
    ensures "user_id" in RecordOf(row, ms, userId) && RecordOf(row, ms, userId)["user_id"] == Some(userId)
  {
    if ms != [] {
      RecordHasUser(row, ms[..|ms| - 1], userId);
    }
  }

  /** The mapping loop of handleImport (`columnMappings.forEach`). */
  method BuildRecord(row: map<string, string>, ms: seq<Mapping>, userId: string) returns (rec: map<string, Option<string>>)
    ensures rec == RecordOf(row, ms, userId)
  {
    rec := map["user_id" := Some(userId)];
    var i := 0;
    while i < |ms|
      invariant 0 <= i <= |ms|
      invariant rec == RecordOf(row, ms[..i], userId)
    {
      assert ms[..i + 1][..i] == ms[..i];
      var m := ms[i];
      if m.csvColumn != "" && m.tableColumn != "" {
        rec := rec[m.tableColumn := MappedValue(row, m.csvColumn)];
      }
      i := i + 1;
    }
    assert ms[..|ms|] == ms;
  }

  function RecordsOf(data: seq<map<string, string>>, ms: seq<Mapping>, userId: string): (r: seq<map<string, Option<string>>>)
    ensures |r| == |data|
    ensures forall k :: 0 <= k < |data| ==> r[k] == RecordOf(data[k], ms, userId)
  {
    if data == [] then []
    else
      var rest := RecordsOf(data[1..], ms, userId);
      var r := [RecordOf(data[0], ms, userId)] + rest;
      assert forall k :: 1 <= k < |r| ==> r[k] == rest[k - 1] && data[k] == data[1..][k - 1];
      r
  }

  /** The row map of handleImport, one record per row. */
  method BuildRecords(data: seq<map<string, string>>, ms: seq<Mapping>, userId: string) returns (rows: seq<map<string, Option<string>>>)
    ensures rows == RecordsOf(data, ms, userId)
  {
    rows := [];
    var k := 0;
    while k < |data|
      invariant 0 <= k <= |data|
      invariant rows == RecordsOf(data[..k], ms, userId)
    {
      var rec := BuildRecord(data[k], ms, userId);
      assert data[..k + 1] == data[..k] + [data[k]];
      RecordsOfAppend(data[..k], [data[k]], ms, userId);
      rows := rows + [rec];
      k := k + 1;
    }
    assert data[..|data|] == data;
  }

  datatype ImportOutcome =
    | IncompleteMapping
    | ImportFailed
    | Imported(rows: seq<map<string, Option<string>>>)

  /** handleImport: refused while a required column is unmapped; fails when no
      user is signed in or the insert fails; otherwise one record per data row. */
  function ImportSpec(t: TableName, ms: seq<Mapping>, data: seq<map<string, string>>,
                      user: Option<string>, insertOk: bool): (r: ImportOutcome)
    ensures r.IncompleteMapping? <==> !ValidateMappings(t, ms)
    ensures r.ImportFailed? <==> ValidateMappings(t, ms) && (user.None? || !insertOk)
    ensures r.Imported? ==> |r.rows| == |data| && r.rows == RecordsOf(data, ms, user.value)
  {
    if !ValidateMappings(t, ms) then IncompleteMapping
    else if user.None? then ImportFailed
    else
      var rows := RecordsOf(data, ms, user.value);
      if insertOk then Imported(rows) else ImportFailed
  }

  lemma {:induction false} RecordsOfAppend(a: seq<map<string, string>>, b: seq<map<string, string>>, ms: seq<Mapping>, userId: string)
    ensures RecordsOf(a + b, ms, userId) == RecordsOf(a, ms, userId) + RecordsOf(b, ms, userId)
  {
    if a == [] {
      assert a + b == b;
    } else {
      assert (a + b)[0] == a[0];
      assert (a + b)[1..] == a[1..] + b;
      RecordsOfAppend(a[1..], b, ms, userId);
    }
  }

  /** The dialog: its step, the parsed headers and rows, and the mappings. */
  class ImportDialog {
    const table: TableName
    var step: nat
    var headers: seq<string>
    var data: seq<map<string, string>>
    var mappings: seq<Mapping>

    constructor (t: TableName)
      ensures table == t && step == 1 && headers == [] && data == [] && mappings == []
    {
      table := t;
      step, headers, data, mappings := 1, [], [], [];
    }

    /** handleFileUpload: parse, set up the mappings and go to step 2; a file
        without any non-blank line throws and nothing changes. */
    method FileUpload(text: string) returns (r: Result<Parsed>)
      modifies this
      ensures r == ParseSpec(text)
      ensures r.Ok? ==> headers == r.value.headers && data == r.value.data &&
                        mappings == InitialMappings(table, r.value.headers) && step == 2
      ensures r.Err? ==> headers == old(headers) && data == old(data) && mappings == old(mappings) && step == old(step)
    {
      r := ParseCsv(text);
      if r.Ok? {
        Load(r.value);
      }
    }

    /** The state after a successful parse. */
    method Load(p: Parsed)
      modifies this
      ensures headers == p.headers && data == p.data && mappings == InitialMappings(table, p.headers) && step == 2
    {
      headers, data := p.headers, p.data;
      mappings := InitialMappings(table, p.headers);
      step := 2;
    }

    method ColumnMappingChange(tableColumn: string, csvColumn: string)
      modifies this
      ensures mappings == ChangeMapping(old(mappings), tableColumn, csvColumn)
      ensures step == old(step) && headers == old(headers) && data == old(data)
    {
      mappings := ChangeMapping(mappings, tableColumn, csvColumn);
    }

    /** handleImport: builds the records row by row; a successful import
        closes (resets) the dialog, anything else leaves it as it was. */
    method Import(user: Option<string>, insertOk: bool) returns (outcome: ImportOutcome)
      modifies this
      ensures outcome == ImportSpec(table, old(mappings), old(data), user, insertOk)
      ensures outcome.Imported? ==> step == 1 && headers == [] && data == [] && mappings == []
      ensures !outcome.Imported? ==> step == old(step) && headers == old(headers) &&
                                     data == old(data) && mappings == old(mappings)
    {
      if !ValidateMappings(table, mappings) {
        return IncompleteMapping;
      }
      if user.None? {
        return ImportFailed;
      }
      var rows := BuildRecords(data, mappings, user.value);
      if !insertOk {
        return ImportFailed;
      }
      outcome := Imported(rows);
      step, headers, data, mappings := 1, [], [], [];
    }
  }
}

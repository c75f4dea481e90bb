/**
 * server/routes/admin.ts: POST /update-db replaces the shops or content table
 * with the rows of an uploaded TSV file. The header line names the columns;
 * each data cell is converted by its column name. The two tables are fields
 * of a database object.
 */
module AdminUpload {
  import opened Wrappers
  import opened Text
  import Tsv

  const BatchSize := 1000

  /** parseTSVLine (lines 33-67): the character loop, proved against the shared parser. */
  method ParseTsvLine(line: string) returns (result: seq<string>)
    ensures result == Tsv.Fields(line)
  {
    result := [];
    var current: string := [];
    var inQuote := false;
    var i := 0;
    while i < |line|
      invariant 0 <= i <= |line|
      invariant Tsv.Run(line[i..], result, current, inQuote) == Tsv.Fields(line)
    {
      var c := line[i];
      if inQuote {
        if c == '"' {
          if i + 1 < |line| && line[i + 1] == '"' {
            current := current + ['"'];
            i := i + 1;
          } else {
            inQuote := false;
          }
        } else {
          current := current + [c];
        }
      } else {
        if c == '"' {
          inQuote := true;
        } else if c == '\t' {
          result := result + [current];
          current := [];
        } else {
          current := current + [c];
        }
      }
      i := i + 1;
    }
    assert line[i..] == [];
    result := result + [current];
  }

  // ---------------------------------------------------------------- cells

  /** How a column's cells are converted, by the column's name. */
  datatype ColumnKind = JsonColumn | IntColumn | FloatColumn | BoolColumn | DateColumn | TextColumn

  /** The column names of lines 101, 106, 109 and 112, which the conversion tests in that order. */
  const JsonNames: set<string> := {"img", "video", "review_prop", "keyword", "taste_result", "rules"}
  const IntNames: set<string> := {"id", "user_id", "catchtable_id", "status", "channel", "visible_rank", "rank", "satisfaction_tier"}
  const FloatNames: set<string> := {"lat", "lon", "sort_key"}
  const BoolNames: set<string> := {"visibility", "is_deleted", "phone_verified", "is_verified", "is_active", "is_required", "is_agreed"}

  /** The date test of line 114. */
  predicate DateName(header: string)
  {
    EndsWith(header, "_at") || EndsWith(header, "_date") || header == "birthdate"
  }

  /**
   * The column kind, decided by the first test of lines 101-118 that the
   * name passes. The four name sets are disjoint, and none of their names
   * passes the date test, so each kind is exactly its own names.
   */
  function KindOf(header: string): (k: ColumnKind)
    ensures k == JsonColumn <==> header in JsonNames
    ensures k == IntColumn <==> header in IntNames
    ensures k == FloatColumn <==> header in FloatNames
    ensures k == BoolColumn <==> header in BoolNames
    ensures k == DateColumn <==> DateName(header) && header !in JsonNames + IntNames + FloatNames + BoolNames
    ensures k == TextColumn <==> !DateName(header) && header !in JsonNames + IntNames + FloatNames + BoolNames
  {
    if header in JsonNames then JsonColumn
    else if header in IntNames then IntColumn
    else if header in FloatNames then FloatColumn
    else if header in BoolNames then BoolColumn
    else if DateName(header) then DateColumn
    else TextColumn
  }

  /**
   * A stored value. Json, Float and Date keep the cell text: JSON.parse,
   * parseFloat and Date parsing are not part of this model.
   */
  datatype Value = Null | Json(raw: string) | Int(n: int) | Float(raw: string) | Bool(b: bool) | Date(raw: string) | Text(s: string)

  /** A boolean cell reads as true: "true" in any ASCII case, "1" or "t" (line 112). */
  predicate IsTrueCell(val: string)
  {
    Lower(val) == "true" || val == "1" || val == "t"
  }

  /** The conversion of one cell (lines 93-123); None is a missing cell. */
  function Coerce(header: string, cell: Option<string>): (v: Value)
    ensures cell.None? || cell.value == "NULL" || cell.value == [] ==> v == Null
    ensures cell.Some? && cell.value != "NULL" && cell.value != [] && KindOf(header) == IntColumn
            ==> (v == Null <==> ParseIntNoRadix(cell.value).None?) && (v.Int? ==> ParseIntNoRadix(cell.value) == Some(v.n))
    ensures cell.Some? && cell.value != "NULL" && cell.value != [] && KindOf(header) == BoolColumn
            ==> v == Bool(IsTrueCell(cell.value))
    ensures cell.Some? && cell.value != "NULL" && cell.value != [] && KindOf(header) == TextColumn
            ==> v == Text(cell.value)
  {
    if cell.None? || cell.value == "NULL" || cell.value == [] then Null
    else
      var val := cell.value;
      match KindOf(header)
      case JsonColumn => Json(val)
      case IntColumn => if ParseIntNoRadix(val).Some? then Int(ParseIntNoRadix(val).value) else Null
      case FloatColumn => Float(val)
      case BoolColumn => Bool(IsTrueCell(val))
      case DateColumn => Date(val)
      case TextColumn => Text(val)
  }

  /** `values[index]`, undefined past the end. */
  function CellAt(values: seq<string>, k: nat): Option<string>
  {
    if k < |values| then Some(values[k]) else None
  }

  /** The row object built by headers.forEach: one key per header. */
  function RowOf(headers: seq<string>, values: seq<string>): (row: map<string, Value>)
    ensures forall h :: h in row <==> h in headers
  {
    if headers == [] then map[]
    else
      var n := |headers| - 1;
      assert headers == headers[..n] + [headers[n]];
      RowOf(headers[..n], values)[headers[n] := Coerce(headers[n], CellAt(values, n))]
  }

  /** A header's value comes from its own column, unless an equal header follows and overwrites it. */
  lemma {:induction false} RowOfLastWins(headers: seq<string>, values: seq<string>, k: nat)
    requires k < |headers|
    requires forall j :: k < j < |headers| ==> headers[j] != headers[k]
    ensures RowOf(headers, values)[headers[k]] == Coerce(headers[k], CellAt(values, k))
  {
    var n := |headers| - 1;
    var prefix := headers[..n];
    var last := Coerce(headers[n], CellAt(values, n));
    RowOfSnoc(headers, values);
    if k < n {
      PrefixKeepsLast(headers, k);
      RowOfLastWins(prefix, values, k);
      UpdateOther(RowOf(prefix, values), headers[n], last, headers[k]);
    }
  }

  lemma RowOfSnoc(headers: seq<string>, values: seq<string>)
    requires headers != []
    ensures var n := |headers| - 1;
            RowOf(headers, values) == RowOf(headers[..n], values)[headers[n] := Coerce(headers[n], CellAt(values, n))]
  {
  }

  lemma PrefixKeepsLast(headers: seq<string>, k: nat)
    requires k < |headers| - 1
    requires forall j :: k < j < |headers| ==> headers[j] != headers[k]
    ensures var prefix := headers[..|headers| - 1];
      prefix[k] == headers[k] && headers[k] != headers[|headers| - 1]
      && forall j :: k < j < |prefix| ==> prefix[j] != prefix[k]
  {
  }

  lemma UpdateOther(m: map<string, Value>, key: string, v: Value, other: string)
    requires other in m && other != key
    ensures m[key := v][other] == m[other]
  {
  }

  /** The row of one data line. */
  function LineRow(headers: seq<string>, line: string): map<string, Value>
  {
    RowOf(headers, Tsv.Fields(line))
  }

  function TrimAll(parts: seq<string>): (r: seq<string>)
    ensures |r| == |parts| && forall k :: 0 <= k < |parts| ==> r[k] == Trim(parts[k])
  {
    if parts == [] then [] else [Trim(parts[0])] + TrimAll(parts[1..])
  }

  /** The rows of the lines, in order. */
  function LineRows(headers: seq<string>, lines: seq<string>): (r: seq<map<string, Value>>)
    ensures |r| == |lines|
  {
    if lines == [] then []
    else LineRows(headers, lines[..|lines| - 1]) + [LineRow(headers, lines[|lines| - 1])]
  }

  // ---------------------------------------------------------------- the route

  datatype UploadError = MissingFields | InvalidTable | EmptyFile

  datatype UploadOutcome = Registered(count: nat) | Rejected(error: UploadError)

  /** The header line trimmed cell by cell, and the non-blank lines after it. */
  function Header(file: string): seq<string>
  {
    TrimAll(Tsv.Fields(Tsv.SplitLines(file)[0]))
  }

  function DataLines(file: string): seq<string>
  {
    Tsv.NonBlank(Tsv.SplitLines(file)[1..])
  }

  /** `!userId || !table || !file`: a missing or empty field (line 17). */
  predicate FieldsMissing(userId: Option<string>, table: Option<string>, file: Option<string>)
  {
    userId.None? || userId.value == [] || table.None? || table.value == [] || file.None?
  }

  /** The two tables an upload may replace (line 21). */
  predicate KnownTable(table: string)
  {
    table == "shops" || table == "content"
  }

  class AdminDatabase {
    var shops: seq<map<string, Value>>
    var content: seq<map<string, Value>>

    constructor(shops: seq<map<string, Value>>, content: seq<map<string, Value>>)
      ensures this.shops == shops && this.content == content
    {
      this.shops := shops;
      this.content := content;
    }

    /**
     * The handler (lines 12-137): the checks come before the table is
     * truncated, then the data lines are inserted in batches of 1000.
     */
    method UpdateDb(userId: Option<string>, table: Option<string>, file: Option<string>)
      returns (o: UploadOutcome)
      modifies this
      ensures o == Rejected(MissingFields) <==> FieldsMissing(userId, table, file)
      ensures o == Rejected(InvalidTable) <==> !FieldsMissing(userId, table, file) && !KnownTable(table.value)
      ensures o == Rejected(EmptyFile) <==>
                !FieldsMissing(userId, table, file) && KnownTable(table.value) && |Tsv.SplitLines(file.value)| < 2
      ensures o.Registered? <==>
                !FieldsMissing(userId, table, file) && KnownTable(table.value) && |Tsv.SplitLines(file.value)| >= 2
      ensures o.Rejected? ==> shops == old(shops) && content == old(content)
      ensures o.Registered? ==>
                o.count == |DataLines(file.value)|
                && (table.value == "shops" ==> shops == LineRows(Header(file.value), DataLines(file.value)) && content == old(content))
                && (table.value == "content" ==> content == LineRows(Header(file.value), DataLines(file.value)) && shops == old(shops))
    {
      if FieldsMissing(userId, table, file) {
        return Rejected(MissingFields);
      }
      if !KnownTable(table.value) {
        return Rejected(InvalidTable);
      }
      var lines := Tsv.SplitLines(file.value);
      if |lines| < 2 {
        return Rejected(EmptyFile);
      }
      var headerFields := ParseTsvLine(lines[0]);
      var headers := TrimAll(headerFields);
      var dataLines := Tsv.NonBlank(lines[1..]);
      var isShops := table.value == "shops";
      if isShops {
        shops := [];
      } else {
        content := [];
      }
      var registeredCount := InsertAll(headers, dataLines, isShops);
      o := Registered(registeredCount);
    }

    /** The batch loop (lines 81-131) after truncation: every data line becomes a row of the table. */
    method InsertAll(headers: seq<string>, dataLines: seq<string>, isShops: bool) returns (registeredCount: nat)
      requires isShops ==> shops == []
      requires !isShops ==> content == []
      modifies this
      ensures registeredCount == |dataLines|
      ensures isShops ==> shops == LineRows(headers, dataLines) && content == old(content)
      ensures !isShops ==> content == LineRows(headers, dataLines) && shops == old(shops)
    {
      registeredCount := 0;
      var i := 0;
      while i < |dataLines|
        invariant 0 <= i && (i < |dataLines| ==> i % BatchSize == 0)
        invariant registeredCount == if i < |dataLines| then i else |dataLines|
        invariant isShops ==> shops == LineRows(headers, dataLines[..registeredCount]) && content == old(content)
        invariant !isShops ==> content == LineRows(headers, dataLines[..registeredCount]) && shops == old(shops)
      {
        var end := if i + BatchSize < |dataLines| then i + BatchSize else |dataLines|;
        var batch := InsertBatch(headers, dataLines, i, end);
        if isShops {
          shops := shops + batch;
        } else {
          content := content + batch;
        }
        registeredCount := registeredCount + |batch|;
        i := i + BatchSize;
      }
      assert dataLines[..registeredCount] == dataLines;
    }
  }

  /** The rows of dataLines[i..end], each line parsed by the character loop. */
  method InsertBatch(headers: seq<string>, dataLines: seq<string>, i: nat, end: nat) returns (batch: seq<map<string, Value>>)
    requires i <= end <= |dataLines|
    ensures batch == LineRows(headers, dataLines[i..end])
    ensures LineRows(headers, dataLines[..end]) == LineRows(headers, dataLines[..i]) + batch
  {
    batch := [];
    for j := i to end
      invariant batch == LineRows(headers, dataLines[i..j])
    {
      var values := ParseTsvLine(dataLines[j]);
      LineRowsStep(headers, dataLines, i, j);
      batch := batch + [RowOf(headers, values)];
    }
    assert dataLines[..end] == dataLines[..i] + dataLines[i..end];
    LineRowsAppend(headers, dataLines[..i], dataLines[i..end]);
  }

  lemma LineRowsStep(headers: seq<string>, lines: seq<string>, i: nat, j: nat)
    requires i <= j < |lines|
    ensures LineRows(headers, lines[i..j + 1]) == LineRows(headers, lines[i..j]) + [LineRow(headers, lines[j])]
  {
    var s := lines[i..j + 1];
    assert s != [] && s[..|s| - 1] == lines[i..j] && s[|s| - 1] == lines[j];
  }

  lemma {:induction false} LineRowsAppend(headers: seq<string>, a: seq<string>, b: seq<string>)
    ensures LineRows(headers, a + b) == LineRows(headers, a) + LineRows(headers, b)
    decreases |b|
  {
    if b == [] {
      assert a + b == a;
    } else {
      var n := |b| - 1;
      assert (a + b)[..|a + b| - 1] == a + b[..n];
      LineRowsAppend(headers, a, b[..n]);
    }
  }

  /** A boolean cell is true exactly for "true" in any ASCII case, "1" and "t". */
  lemma BoolCells(header: string)
    requires KindOf(header) == BoolColumn
    ensures Coerce(header, Some("TRUE")) == Bool(true) && Coerce(header, Some("t")) == Bool(true)
    ensures Coerce(header, Some("1")) == Bool(true)
    ensures Coerce(header, Some("yes")) == Bool(false) && Coerce(header, Some("T")) == Bool(false)
    ensures Coerce(header, Some("NULL")) == Null && Coerce(header, None) == Null
  {
    TrueCells();
    assert "TRUE" != "NULL" && "t" != "NULL" && "1" != "NULL" && "yes" != "NULL" && "T" != "NULL";
  }

  lemma TrueCells()
    ensures IsTrueCell("TRUE") && IsTrueCell("t") && IsTrueCell("1")
    ensures !IsTrueCell("yes") && !IsTrueCell("T")
  {
    assert Lower("TRUE") == "true" by {
      assert forall i :: 0 <= i < 4 ==> LowerChar("TRUE"[i]) == "true"[i];
    }
    assert |Lower("yes")| == 3 && |Lower("T")| == 1;
  }
}

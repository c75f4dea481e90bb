/**
 * server/scripts/import_content.ts: reads the content dump line by line,
 * joins lines while the quote count is odd, turns each data row into a
 * content record and inserts the records in batches of 1000, creating the
 * users they name first. The file's lines and the JSON validity of a cell are
 * parameters; the importer's database is an object with the users and
 * content tables and the sizes of the batches it inserted.
 */
module ImportContent {
  import opened Wrappers
  import opened Text
  import Tsv

  const BatchSize := 1000

  /** What parseJSONField returns: [], null, or the value JSON.parse gives for the text. */
  datatype JsonField = EmptyArray | JsonNull | Parsed(raw: string)

  /** parseJSONField (lines 10-17); `isJson` says whether JSON.parse accepts a text. */
  function ParseJsonField(val: string, isJson: string -> bool): (r: JsonField)
    ensures val == [] || val == "[]" ==> r == EmptyArray
    ensures val != [] && val != "[]" ==> (r == JsonNull <==> !isJson(val))
    ensures r.Parsed? ==> r.raw == val && isJson(val)
  {
    if val == [] || val == "[]" then EmptyArray
    else if isJson(val) then Parsed(val)
    else JsonNull
  }

  /** The record mapRow builds; ids are None where parseInt gives NaN, dates keep their text. */
  datatype Record = Record(
    id: Option<int>, userId: Option<int>, kind: string, img: JsonField, video: JsonField,
    text: string, reviewProp: JsonField, keyword: JsonField, visibility: bool, isDeleted: bool,
    createdAt: string, updatedAt: string)

  /** mapRow (lines 258-276). */
  function MapRow(row: seq<string>, isJson: string -> bool): (r: Option<Record>)
    ensures r.None? <==> |row| < 12
    ensures r.Some? ==> r.value.visibility == (row[8] == "true") && r.value.isDeleted == (row[9] == "true")
    ensures r.Some? ==> r.value.id == ParseIntNoRadix(row[0]) && r.value.userId == ParseIntNoRadix(row[1])
    ensures r.Some? ==> r.value.kind == row[2] && r.value.text == row[5]
  {
    if |row| < 12 then None
    else Some(Record(
      ParseIntNoRadix(row[0]), ParseIntNoRadix(row[1]), row[2], ParseJsonField(row[3], isJson), ParseJsonField(row[4], isJson),
      row[5], ParseJsonField(row[6], isJson), ParseJsonField(row[7], isJson),
      row[8] == "true", row[9] == "true", row[10], row[11]))
  }

  /** parseTSVRow (lines 223-256): the same machine as the admin route's parser. */
  method ParseTsvRow(data: string) returns (fields: seq<string>)
    ensures fields == Tsv.Fields(data)
  {
    fields := [];
    var currentField: string := [];
    var inQuote := false;
    var i := 0;
    while i < |data|
      invariant 0 <= i <= |data|
      invariant Tsv.Run(data[i..], fields, currentField, inQuote) == Tsv.Fields(data)
    {
      var c := data[i];
      if inQuote {
        if c == '"' {
          if i + 1 < |data| && data[i + 1] == '"' {
            currentField := currentField + ['"'];
            i := i + 1;
          } else {
            inQuote := false;
          }
        } else {
          currentField := currentField + [c];
        }
      } else {
        if c == '"' {
          inQuote := true;
        } else if c == '\t' {
          fields := fields + [currentField];
          currentField := [];
        } else {
          currentField := currentField + [c];
        }
      }
      i := i + 1;
    }
    assert data[i..] == [];
    fields := fields + [currentField];
  }

  // ---------------------------------------------------------------- joining lines

  /** The rows completed so far and the buffered start of an unfinished one. */
  datatype Joined = Joined(rows: seq<string>, buffer: string)

  predicate Odd(n: nat) { n % 2 == 1 }

  /** One line read (lines 153-182): appended to the buffer, then kept buffered while the quotes are unbalanced. */
  function JoinStep(j: Joined, line: string): Joined
  {
    var currentLine := if j.buffer != [] then j.buffer + "\n" + line else line;
    if Odd(CountChar(currentLine, '"')) then Joined(j.rows, currentLine)
    else Joined(j.rows + [currentLine], [])
  }

  function JoinLines(lines: seq<string>): (j: Joined)
    ensures |j.rows| <= |lines|
  {
    if lines == [] then Joined([], [])
    else JoinStep(JoinLines(lines[..|lines| - 1]), lines[|lines| - 1])
  }

  /** Every completed row has balanced quotes; a buffer is empty or unbalanced. */
  lemma {:induction false} JoinedBalanced(lines: seq<string>)
    ensures forall k :: 0 <= k < |JoinLines(lines).rows| ==> !Odd(CountChar(JoinLines(lines).rows[k], '"'))
    ensures JoinLines(lines).buffer == [] || Odd(CountChar(JoinLines(lines).buffer, '"'))
  {
    if lines != [] {
      JoinedBalanced(lines[..|lines| - 1]);
    }
  }

  /** The rows and the buffer, still unsplit. */
  function Pieces(j: Joined): seq<string>
  {
    if j.buffer == [] then j.rows else j.rows + [j.buffer]
  }

  lemma JoinSnoc(parts: seq<string>, last: string)
    requires parts != []
    ensures Join(parts + [last], "\n") == Join(parts, "\n") + "\n" + last
    decreases |parts|
  {
    if |parts| == 1 {
      assert (parts + [last])[1..] == [last];
    } else {
      assert (parts + [last])[1..] == parts[1..] + [last];
      JoinSnoc(parts[1..], last);
    }
  }

  /** After a step the pieces are the old rows and the current line, whether or not it is complete. */
  lemma PiecesStep(j: Joined, line: string)
    ensures Pieces(JoinStep(j, line)) == j.rows + [if j.buffer != [] then j.buffer + "\n" + line else line]
  {
    var cur := if j.buffer != [] then j.buffer + "\n" + line else line;
    if Odd(CountChar(cur, '"')) {
      assert cur != [];
    }
  }

  /** One step adds the line to the joined text, after a newline. */
  lemma StepJoin(j: Joined, line: string)
    requires Pieces(j) != []
    ensures Join(Pieces(JoinStep(j, line)), "\n") == Join(Pieces(j), "\n") + "\n" + line
  {
    PiecesStep(j, line);
    var cur := if j.buffer != [] then j.buffer + "\n" + line else line;
    if j.buffer != [] {
      if j.rows == [] {
        assert Pieces(j) == [j.buffer];
      } else {
        JoinSnoc(j.rows, cur);
        JoinSnoc(j.rows, j.buffer);
        assert Join(j.rows, "\n") + "\n" + cur == Join(j.rows, "\n") + "\n" + j.buffer + "\n" + line;
      }
    } else {
      JoinSnoc(j.rows, line);
    }
  }

  /** Joining never loses, reorders or changes text: the pieces put back together are the input. */
  lemma {:induction false} JoinLinesKeepsText(lines: seq<string>)
    requires lines != []
    ensures Pieces(JoinLines(lines)) != []
    ensures Join(Pieces(JoinLines(lines)), "\n") == Join(lines, "\n")
  {
    var n := |lines| - 1;
    var init := lines[..n];
    var line := lines[n];
    var j := JoinLines(init);
    assert JoinLines(lines) == JoinStep(j, line);
    PiecesStep(j, line);
    if init == [] {
      assert lines == [line];
    } else {
      JoinLinesKeepsText(init);
      StepJoin(j, line);
      assert lines == init + [line];
      JoinSnoc(init, line);
    }
  }

  // ---------------------------------------------------------------- records

  /** The records of the completed rows after the header row, in order. */
  function RecordsOf(rows: seq<string>, isJson: string -> bool): (r: seq<Record>)
    ensures |r| <= |rows|
  {
    if rows == [] then []
    else
      var init := RecordsOf(rows[..|rows| - 1], isJson);
      var rec := MapRow(Tsv.Fields(rows[|rows| - 1]), isJson);
      if rec.Some? then init + [rec.value] else init
  }

  lemma RecordsOfSnoc(rows: seq<string>, row: string, isJson: string -> bool)
    ensures RecordsOf(rows + [row], isJson)
            == RecordsOf(rows, isJson) + (var r := MapRow(Tsv.Fields(row), isJson); if r.Some? then [r.value] else [])
  {
    assert (rows + [row])[..|rows|] == rows;
  }

  lemma JoinLinesSnoc(lines: seq<string>, i: nat)
    requires i < |lines|
    ensures JoinLines(lines[..i + 1]) == JoinStep(JoinLines(lines[..i]), lines[i])
  {
    assert lines[..i + 1][..i] == lines[..i];
  }

  /** The rows after the header row. */
  function AfterHeader(rows: seq<string>): seq<string>
  {
    if rows == [] then [] else rows[1..]
  }

  function DataRows(lines: seq<string>): seq<string>
  {
    AfterHeader(JoinLines(lines).rows)
  }

  /** The reading loop's variables: linesBuffer, isFirstLine and pendingContent. */
  datatype ReadState = ReadState(linesBuffer: string, isFirstLine: bool, pending: seq<Record>)

  /** The users a batch names: user ids that parsed to a non-zero number. */
  function UserIds(recs: seq<Record>): set<int>
  {
    set k | 0 <= k < |recs| && recs[k].userId.Some? && recs[k].userId.value != 0 :: recs[k].userId.value
  }

  /** The batch sizes for n records: full batches of 1000 and then the remainder, if any. */
  function Batches(n: nat): (b: seq<nat>)
    ensures forall k :: 0 <= k < |b| ==> 0 < b[k] <= BatchSize
    ensures forall k :: 0 <= k < |b| - 1 ==> b[k] == BatchSize
    decreases n
  {
    if n == 0 then [] else if n <= BatchSize then [n] else [BatchSize] + Batches(n - BatchSize)
  }

  function Sum(b: seq<nat>): nat
  {
    if b == [] then 0 else b[0] + Sum(b[1..])
  }

  lemma {:induction false} BatchesCover(n: nat)
    ensures Sum(Batches(n)) == n
    decreases n
  {
    if n > BatchSize {
      BatchesCover(n - BatchSize);
      assert Batches(n)[1..] == Batches(n - BatchSize);
    }
  }

  lemma {:induction false} BatchesFull(m: nat, r: nat)
    requires 0 < r <= BatchSize
    ensures Batches(m * BatchSize + r) == seq(m, _ => BatchSize) + [r]
    decreases m
  {
    if m > 0 {
      BatchesFull(m - 1, r);
      assert m * BatchSize + r - BatchSize == (m - 1) * BatchSize + r;
      assert [BatchSize] + seq(m - 1, _ => BatchSize) == seq(m, _ => BatchSize);
    }
  }

  /** n records already in full batches and r more: the full batches, then one of r if r is not zero. */
  lemma BatchesAfterFlushed(n: nat, r: nat)
    requires n % BatchSize == 0 && r < BatchSize
    ensures Batches(n + r) == seq(n / BatchSize, _ => BatchSize) + (if r > 0 then [r] else [])
  {
    if r > 0 {
      BatchesFull(n / BatchSize, r);
    } else if n > 0 {
      BatchesFull(n / BatchSize - 1, BatchSize);
      assert seq(n / BatchSize - 1, _ => BatchSize) + [BatchSize] == seq(n / BatchSize, _ => BatchSize);
    }
  }

  class ContentImporter {
    var users: set<int>
    var content: seq<Record>
    var batches: seq<nat>

    constructor(users: set<int>)
      ensures this.users == users && content == [] && batches == []
    {
      this.users := users;
      content := [];
      batches := [];
    }

    /** ensureUsersExist then insertContentBatch (lines 19-53, 202-218). */
    method Flush(pending: seq<Record>)
      requires pending != []
      modifies this
      ensures users == old(users) + UserIds(pending)
      ensures content == old(content) + pending
      ensures batches == old(batches) + [|pending|]
    {
      users := users + UserIds(pending);
      content := content + pending;
      batches := batches + [|pending|];
    }

    /** The tables hold the records flushed so far, in full batches, on top of their first contents. */
    ghost predicate Stored(flushed: seq<Record>, content0: seq<Record>, batches0: seq<nat>, users0: set<int>)
      reads this
    {
      |flushed| % BatchSize == 0
      && content == content0 + flushed
      && batches == batches0 + seq(|flushed| / BatchSize, _ => BatchSize)
      && users == users0 + UserIds(flushed)
    }

    /** Lines 196-209: a record joins the pending batch, which is flushed when it reaches 1000. */
    method AddRecord(record: Option<Record>, pending: seq<Record>, ghost flushed: seq<Record>,
                     ghost content0: seq<Record>, ghost batches0: seq<nat>, ghost users0: set<int>)
      returns (pending': seq<Record>, ghost flushed': seq<Record>)
      requires |pending| < BatchSize && Stored(flushed, content0, batches0, users0)
      modifies this
      ensures flushed' + pending' == flushed + pending + (if record.Some? then [record.value] else [])
      ensures |pending'| < BatchSize && Stored(flushed', content0, batches0, users0)
    {
      pending' := pending;
      flushed' := flushed;
      if record.Some? {
        pending' := pending' + [record.value];
      }
      if |pending'| >= BatchSize {
        Flush(pending');
        UserIdsAppend(flushed, pending');
        assert seq(|flushed| / BatchSize, _ => BatchSize) + [|pending'|]
               == seq(|flushed + pending'| / BatchSize, _ => BatchSize);
        flushed' := flushed + pending';
        pending' := [];
      }
    }

    /** The reading loop's state agrees with the joined rows and the records flushed so far. */
    ghost predicate Reading(st: ReadState, joined: Joined, flushed: seq<Record>, isJson: string -> bool,
                            content0: seq<Record>, batches0: seq<nat>, users0: set<int>)
      reads this
    {
      st.linesBuffer == joined.buffer
      && (st.isFirstLine <==> joined.rows == [])
      && flushed + st.pending == RecordsOf(AfterHeader(joined.rows), isJson)
      && |st.pending| < BatchSize
      && Stored(flushed, content0, batches0, users0)
    }

    /** One pass of the for-await loop (lines 149-211). */
    method ReadLine(st: ReadState, line: string, isJson: string -> bool, ghost joined: Joined, ghost flushed: seq<Record>,
                    ghost content0: seq<Record>, ghost batches0: seq<nat>, ghost users0: set<int>)
      returns (st': ReadState, ghost flushed': seq<Record>)
      requires Reading(st, joined, flushed, isJson, content0, batches0, users0)
      modifies this
      ensures Reading(st', JoinStep(joined, line), flushed', isJson, content0, batches0, users0)
    {
      var currentLine := if st.linesBuffer != [] then st.linesBuffer + "\n" + line else line;
      flushed' := flushed;
      if Odd(CountChar(currentLine, '"')) {
        st' := st.(linesBuffer := currentLine);
      } else {
        var fields := ParseTsvRow(currentLine);
        if st.isFirstLine {
          st' := ReadState([], false, st.pending);
          assert AfterHeader(joined.rows + [currentLine]) == [];
        } else {
          ghost var before := AfterHeader(joined.rows);
          assert AfterHeader(joined.rows + [currentLine]) == before + [currentLine];
          RecordsOfSnoc(before, currentLine, isJson);
          var record := MapRow(fields, isJson);
          var pending;
          pending, flushed' := AddRecord(record, st.pending, flushed, content0, batches0, users0);
          st' := ReadState([], false, pending);
        }
      }
    }

    /**
     * mainFromReadline (lines 132-221): completed rows after the first become
     * records; every 1000 pending records are flushed, and the rest at the
     * end. A row still buffered at the end of the file is dropped.
     */
    method Import(lines: seq<string>, isJson: string -> bool)
      modifies this
      ensures content == old(content) + RecordsOf(DataRows(lines), isJson)
      ensures batches == old(batches) + Batches(|RecordsOf(DataRows(lines), isJson)|)
      ensures users == old(users) + UserIds(RecordsOf(DataRows(lines), isJson))
    {
      var st := ReadState([], true, []);
      ghost var flushed: seq<Record> := [];
      for i := 0 to |lines|
        invariant Reading(st, JoinLines(lines[..i]), flushed, isJson, old(content), old(batches), old(users))
      {
        JoinLinesSnoc(lines, i);
        st, flushed := ReadLine(st, lines[i], isJson, JoinLines(lines[..i]), flushed, old(content), old(batches), old(users));
      }
      assert lines[..|lines|] == lines;
      ghost var recs := RecordsOf(DataRows(lines), isJson);
      assert flushed + st.pending == recs;
      FlushRest(st.pending, flushed, old(content), old(batches), old(users));
    }

    /** Lines 213-218: the remaining records are flushed as one last, smaller batch. */
    method FlushRest(pending: seq<Record>, ghost flushed: seq<Record>,
                     ghost content0: seq<Record>, ghost batches0: seq<nat>, ghost users0: set<int>)
      requires |pending| < BatchSize && Stored(flushed, content0, batches0, users0)
      modifies this
      ensures content == content0 + (flushed + pending)
      ensures batches == batches0 + Batches(|flushed + pending|)
      ensures users == users0 + UserIds(flushed + pending)
    {
      assert content0 + flushed + pending == content0 + (flushed + pending);
      BatchesAfterFlushed(|flushed|, |pending|);
      if |pending| > 0 {
        Flush(pending);
      } else {
        assert flushed + pending == flushed;
      }
      UserIdsAppend(flushed, pending);
    }
  }

  lemma UserIdsAppend(a: seq<Record>, b: seq<Record>)
    ensures UserIds(a + b) == UserIds(a) + UserIds(b)
  {
    var ab := a + b;
    forall x | x in UserIds(ab)
      ensures x in UserIds(a) + UserIds(b)
    {
      var k :| 0 <= k < |ab| && ab[k].userId.Some? && ab[k].userId.value != 0 && ab[k].userId.value == x;
      if k < |a| {
        assert ab[k] == a[k];
      } else {
        assert ab[k] == b[k - |a|];
      }
    }
    forall x | x in UserIds(a) + UserIds(b)
      ensures x in UserIds(ab)
    {
      if x in UserIds(a) {
        var k :| 0 <= k < |a| && a[k].userId.Some? && a[k].userId.value != 0 && a[k].userId.value == x;
        assert ab[k] == a[k];
      } else {
        var k :| 0 <= k < |b| && b[k].userId.Some? && b[k].userId.value != 0 && b[k].userId.value == x;
        assert ab[|a| + k] == b[k];
      }
    }
  }

  /** Rows with fewer than twelve fields are skipped; "true" alone sets the flags. */
  lemma MapRowFlags(row: seq<string>, isJson: string -> bool)
    requires |row| >= 12 && row[8] == "TRUE" && row[9] == "true"
    ensures MapRow(row, isJson).Some? && !MapRow(row, isJson).value.visibility && MapRow(row, isJson).value.isDeleted
  {
  }
}

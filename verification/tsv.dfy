/**
 * The quoted tab-separated format shared by the admin upload route and the
 * import scripts: tabs outside quotes split fields, a quote outside quotes
 * opens quoting, and inside quotes a doubled quote stands for one quote while
 * a single quote closes quoting. The character loops of the individual files
 * are proved against the function here.
 */
module Tsv {
  import opened Text

  /**
   * The fields the parser returns for the rest `s` of a line, given the fields
   * already pushed, the field being built and whether it is inside quotes.
   */
  function Run(s: string, fields: seq<string>, current: string, inQuote: bool): (r: seq<string>)
    ensures |r| >= |fields| + 1 && r[..|fields|] == fields
    decreases |s|
  {
    if s == [] then fields + [current]
    else if inQuote then
      if s[0] == '"' then
        if |s| > 1 && s[1] == '"' then Run(s[2..], fields, current + ['"'], true)
        else Run(s[1..], fields, current, false)
      else Run(s[1..], fields, current + [s[0]], true)
    else if s[0] == '"' then Run(s[1..], fields, current, true)
    else if s[0] == '\t' then Run(s[1..], fields + [current], [], false)
    else Run(s[1..], fields, current + [s[0]], false)
  }

  /** The fields of a whole line. */
  function Fields(line: string): (r: seq<string>)
    ensures |r| >= 1
  {
    Run(line, [], [], false)
  }

  // ---------------------------------------------------------------- writing a row

  /** The body of a quoted cell: every quote doubled. */
  function Escape(f: string): (r: string)
    ensures |r| == |f| + CountChar(f, '"')
  {
    if f == [] then []
    else (if f[0] == '"' then "\"\"" else [f[0]]) + Escape(f[1..])
  }

  /** A cell as a writer puts it in a line: bare, or wrapped in quotes. */
  datatype Cell = Plain(text: string) | Quoted(text: string)

  /** A bare cell may hold neither a quote nor a tab. */
  predicate Writable(c: Cell)
  {
    c.Plain? ==> '"' !in c.text && '\t' !in c.text
  }

  function EncodeCell(c: Cell): string
  {
    match c
    case Plain(t) => t
    case Quoted(t) => "\"" + Escape(t) + "\""
  }

  /** The cells written in order, separated by tabs. */
  function EncodeRow(cells: seq<Cell>): string
    requires |cells| >= 1
  {
    if |cells| == 1 then EncodeCell(cells[0])
    else EncodeCell(cells[0]) + "\t" + EncodeRow(cells[1..])
  }

  function Texts(cells: seq<Cell>): (r: seq<string>)
    ensures |r| == |cells| && forall k :: 0 <= k < |cells| ==> r[k] == cells[k].text
  {
    if cells == [] then [] else [cells[0].text] + Texts(cells[1..])
  }

  /** A tab outside quotes ends the field. */
  lemma RunTab(rest: string, fields: seq<string>, current: string)
    ensures Run(['\t'] + rest, fields, current, false) == Run(rest, fields + [current], [], false)
  {
    assert (['\t'] + rest)[1..] == rest;
  }

  /** Any other character outside quotes is kept. */
  lemma RunChar(c: char, rest: string, fields: seq<string>, current: string)
    requires c != '"' && c != '\t'
    ensures Run([c] + rest, fields, current, false) == Run(rest, fields, current + [c], false)
  {
    assert ([c] + rest)[1..] == rest;
  }

  /** A single quote inside quotes closes them. */
  lemma RunCloseQuote(rest: string, fields: seq<string>, current: string)
    requires rest == [] || rest[0] != '"'
    ensures Run(['"'] + rest, fields, current, true) == Run(rest, fields, current, false)
  {
    assert (['"'] + rest)[1..] == rest;
  }

  /** A doubled quote inside quotes stands for one quote. */
  lemma RunDoubledQuote(rest: string, fields: seq<string>, current: string)
    ensures Run(['"', '"'] + rest, fields, current, true) == Run(rest, fields, current + ['"'], true)
  {
    assert (['"', '"'] + rest)[2..] == rest;
  }

  /** Any other character inside quotes is kept. */
  lemma RunQuotedChar(c: char, rest: string, fields: seq<string>, current: string)
    requires c != '"'
    ensures Run([c] + rest, fields, current, true) == Run(rest, fields, current + [c], true)
  {
    assert ([c] + rest)[1..] == rest;
  }

  lemma {:induction false} RunEscaped(f: string, rest: string, fields: seq<string>, current: string)
    requires rest == [] || rest[0] != '"'
    ensures Run(Escape(f) + "\"" + rest, fields, current, true) == Run(rest, fields, current + f, false)
    decreases |f|
  {
    var s := Escape(f) + "\"" + rest;
    if f == [] {
      assert s == ['"'] + rest;
      RunCloseQuote(rest, fields, current);
      assert current + f == current;
    } else {
      var tail := Escape(f[1..]) + "\"" + rest;
      RunEscaped(f[1..], rest, fields, current + [f[0]]);
      ConsAppend(current, f);
      EscapeHead(f, rest);
      if f[0] == '"' {
        RunDoubledQuote(tail, fields, current);
      } else {
        RunQuotedChar(f[0], tail, fields, current);
      }
    }
  }

  /** Escape works one character at a time from the front. */
  lemma EscapeHead(f: string, rest: string)
    requires f != []
    ensures Escape(f) + "\"" + rest == (if f[0] == '"' then ['"', '"'] else [f[0]]) + (Escape(f[1..]) + "\"" + rest)
  {
    var h := if f[0] == '"' then ['"', '"'] else [f[0]];
    var e := Escape(f[1..]);
    assert Escape(f) == h + e;
    Regroup(h, e, "\"", rest);
  }

  lemma Regroup(h: string, e: string, q: string, rest: string)
    ensures h + e + q + rest == h + (e + q + rest)
  {
  }

  lemma ConsAppend(current: string, f: string)
    requires f != []
    ensures current + [f[0]] + f[1..] == current + f
  {
    assert f == [f[0]] + f[1..];
  }

  lemma {:induction false} RunPlain(f: string, rest: string, fields: seq<string>, current: string)
    requires '"' !in f && '\t' !in f
    ensures Run(f + rest, fields, current, false) == Run(rest, fields, current + f, false)
    decreases |f|
  {
    if f == [] {
      assert f + rest == rest;
      assert current + f == current;
    } else {
      var s := f + rest;
      RunPlain(f[1..], rest, fields, current + [f[0]]);
      assert s[0] == f[0] && s[1..] == f[1..] + rest;
      assert s[0] != '"' && s[0] != '\t';
      assert Run(s, fields, current, false) == Run(s[1..], fields, current + [f[0]], false);
      assert current + [f[0]] + f[1..] == current + f;
    }
  }

  lemma RunCell(c: Cell, rest: string, fields: seq<string>)
    requires Writable(c)
    requires rest == [] || rest[0] != '"'
    ensures Run(EncodeCell(c) + rest, fields, [], false) == Run(rest, fields, c.text, false)
  {
    match c
    case Plain(t) =>
      RunPlain(t, rest, fields, []);
      assert [] + t == t;
    case Quoted(t) =>
      var s := ['"'] + (Escape(t) + "\"" + rest);
      assert EncodeCell(c) + rest == s;
      assert s[0] == '"' && s[1..] == Escape(t) + "\"" + rest;
      assert Run(s, fields, [], false) == Run(s[1..], fields, [], true);
      RunEscaped(t, rest, fields, []);
      assert [] + t == t;
  }

  lemma AppendAssoc(a: seq<string>, b: seq<string>, c: seq<string>)
    ensures a + b + c == a + (b + c)
  {
  }

  /** The first cell of a longer row and its tab read as one field. */
  lemma RunRowHead(cells: seq<Cell>, fields: seq<string>)
    requires |cells| >= 2 && Writable(cells[0])
    ensures Run(EncodeRow(cells), fields, [], false) == Run(EncodeRow(cells[1..]), fields + [cells[0].text], [], false)
  {
    var tail := EncodeRow(cells[1..]);
    var more := ['\t'] + tail;
    assert EncodeRow(cells) == EncodeCell(cells[0]) + more;
    RunCell(cells[0], more, fields);
    RunTab(tail, fields, cells[0].text);
  }

  lemma {:induction false} RunRow(cells: seq<Cell>, fields: seq<string>)
    requires |cells| >= 1
    requires forall k :: 0 <= k < |cells| ==> Writable(cells[k])
    ensures Run(EncodeRow(cells), fields, [], false) == fields + Texts(cells)
    decreases |cells|
  {
    if |cells| == 1 {
      RunCell(cells[0], [], fields);
      assert EncodeRow(cells) + [] == EncodeRow(cells);
      assert Texts(cells) == [cells[0].text];
    } else {
      RunRowHead(cells, fields);
      var rest := cells[1..];
      assert forall k :: 0 <= k < |rest| ==> rest[k] == cells[k + 1];
      RunRow(rest, fields + [cells[0].text]);
      assert Texts(cells) == [cells[0].text] + Texts(rest);
      AppendAssoc(fields, [cells[0].text], Texts(rest));
    }
  }

  /** Writing cells as a row and parsing the row gives back every cell's text. */
  lemma RowRoundTrip(cells: seq<Cell>)
    requires |cells| >= 1
    requires forall k :: 0 <= k < |cells| ==> Writable(cells[k])
    ensures Fields(EncodeRow(cells)) == Texts(cells)
  {
    RunRow(cells, []);
  }

  function PlainCells(parts: seq<string>): (r: seq<Cell>)
    ensures |r| == |parts| && forall k :: 0 <= k < |parts| ==> r[k] == Plain(parts[k])
  {
    if parts == [] then [] else [Plain(parts[0])] + PlainCells(parts[1..])
  }

  lemma {:induction false} EncodePlainRow(parts: seq<string>)
    requires |parts| >= 1
    ensures EncodeRow(PlainCells(parts)) == Join(parts, "\t")
    ensures forall k, i :: 0 <= k < |parts| && 0 <= i < |parts[k]| ==> parts[k][i] in Join(parts, "\t")
    decreases |parts|
  {
    if |parts| > 1 {
      EncodePlainRow(parts[1..]);
      assert PlainCells(parts)[1..] == PlainCells(parts[1..]);
      var j := Join(parts, "\t");
      assert j == parts[0] + "\t" + Join(parts[1..], "\t");
      forall k, i | 0 <= k < |parts| && 0 <= i < |parts[k]|
        ensures parts[k][i] in j
      {
        if k == 0 {
          assert j[i] == parts[0][i];
        } else {
          assert parts[k] == parts[1..][k - 1];
          var m :| 0 <= m < |Join(parts[1..], "\t")| && Join(parts[1..], "\t")[m] == parts[k][i];
          assert j[|parts[0]| + 1 + m] == parts[k][i];
        }
      }
    }
  }

  /** Without quotes, the parser is a plain split on tabs: one more field than tabs. */
  lemma FieldsUnquoted(line: string)
    requires '"' !in line
    ensures Fields(line) == Split(line, '\t')
    ensures |Fields(line)| == CountChar(line, '\t') + 1
  {
    var parts := Split(line, '\t');
    EncodePlainRow(parts);
    var cells := PlainCells(parts);
    forall k | 0 <= k < |cells|
      ensures Writable(cells[k])
    {
      assert '\t' !in parts[k];
      assert '"' !in parts[k] by {
        forall i | 0 <= i < |parts[k]|
          ensures parts[k][i] != '"'
        {
          assert parts[k][i] in line;
        }
      }
    }
    RowRoundTrip(cells);
    assert Texts(cells) == parts;
  }

  // ---------------------------------------------------------------- lines

  /** Drops one carriage return at the end. */
  function DropCR(s: string): string
  {
    if s != [] && s[|s| - 1] == '\r' then s[..|s| - 1] else s
  }

  function DropCRs(parts: seq<string>): (r: seq<string>)
    ensures |r| == |parts| && forall k :: 0 <= k < |parts| ==> r[k] == DropCR(parts[k])
  {
    if parts == [] then [] else [DropCR(parts[0])] + DropCRs(parts[1..])
  }

  /**
   * `split(/\r?\n/)`: lines end at "\n" or "\r\n"; a carriage return at the
   * very end is not followed by "\n" and stays.
   */
  function SplitLines(s: string): (r: seq<string>)
    ensures |r| == CountChar(s, '\n') + 1
    ensures forall k :: 0 <= k < |r| ==> '\n' !in r[k]
  {
    var parts := Split(s, '\n');
    var n := |parts| - 1;
    DropCRs(parts[..n]) + [parts[n]]
  }

  /** Lines joined with "\r\n" split back into the same lines. */
  lemma SplitCrLfLines(lines: seq<string>)
    requires |lines| >= 1
    requires forall k :: 0 <= k < |lines| ==> '\n' !in lines[k] && (lines[k] == [] || lines[k][|lines[k]| - 1] != '\r')
    ensures SplitLines(Join(Crlf(lines[..|lines| - 1]) + [lines[|lines| - 1]], "\n")) == lines
  {
    var parts := Crlf(lines[..|lines| - 1]) + [lines[|lines| - 1]];
    forall k | 0 <= k < |parts|
      ensures '\n' !in parts[k]
    {
      if k < |lines| - 1 {
        assert parts[k] == lines[k] + "\r";
      }
    }
    SplitJoin(parts, '\n');
    var r := SplitLines(Join(parts, "\n"));
    forall k | 0 <= k < |lines|
      ensures r[k] == lines[k]
    {
      if k < |lines| - 1 {
        assert parts[k] == lines[k] + "\r";
        assert DropCR(lines[k] + "\r") == lines[k];
      }
    }
  }

  /** Every line with a carriage return appended. */
  function Crlf(lines: seq<string>): (r: seq<string>)
    ensures |r| == |lines| && forall k :: 0 <= k < |lines| ==> r[k] == lines[k] + "\r"
  {
    if lines == [] then [] else [lines[0] + "\r"] + Crlf(lines[1..])
  }

  /** The lines that are not blank, in order. */
  function NonBlank(lines: seq<string>): (r: seq<string>)
    ensures |r| <= |lines|
    ensures forall k :: 0 <= k < |r| ==> r[k] in lines && !IsBlank(r[k])
    ensures forall k :: 0 <= k < |lines| && !IsBlank(lines[k]) ==> lines[k] in r
    ensures forall x :: multiset(r)[x] == if IsBlank(x) then 0 else multiset(lines)[x]
  {
    if lines == [] then []
    else
      var rest := NonBlank(lines[1..]);
      assert forall k :: 1 <= k < |lines| ==> lines[k] == lines[1..][k - 1];
      assert lines == [lines[0]] + lines[1..];
      assert multiset(lines) == multiset{lines[0]} + multiset(lines[1..]);
      if IsBlank(lines[0]) then rest else [lines[0]] + rest
  }

  /**
   * The filter works line by line: filtering a concatenation concatenates the
   * filtered parts, so the kept lines stay in their input order.
   */
  lemma {:induction false} NonBlankAppend(a: seq<string>, b: seq<string>)
    ensures NonBlank(a + b) == NonBlank(a) + NonBlank(b)
  {
    if a == [] {
      assert a + b == b;
    } else {
      assert (a + b)[0] == a[0] && (a + b)[1..] == a[1..] + b;
      NonBlankAppend(a[1..], b);
      if !IsBlank(a[0]) {
        assert [a[0]] + (NonBlank(a[1..]) + NonBlank(b)) == ([a[0]] + NonBlank(a[1..])) + NonBlank(b);
      }
    }
  }

  /** A single line is kept exactly when it is not blank. */
  lemma NonBlankSingle(line: string)
    ensures NonBlank([line]) == if IsBlank(line) then [] else [line]
  {
    assert [line][1..] == [];
  }
}

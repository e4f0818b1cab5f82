/** `CSVExporter.exportToCSV`: a header line of column names, then one line
    per table row, with cells holding a comma or a double quote escaped as in
    section 2, rule 7 of RFC 4180. The table is given as values (`None` for a
    null cell) and the file as the string the writer produces. */
module Csv {
  import opened Wrappers

  /** A table model: column names and rows of cells. */
  datatype Table = Table(columnNames: seq<string>, rows: seq<seq<Option<string>>>)

  /** Every row has a cell for every column. */
  predicate Rectangular(t: Table)
  {
    forall r :: r in t.rows ==> |r| == |t.columnNames|
  }

  /** `String.join(",", fields)`. */
  function Join(fields: seq<string>): string
  {
    if |fields| == 0 then ""
    else if |fields| == 1 then fields[0]
    else fields[0] + "," + Join(fields[1..])
  }

  /** Joining one more field adds a comma and the field at the end. */
  lemma {:induction false} JoinSnoc(fields: seq<string>, last: string)
    requires |fields| > 0
    ensures Join(fields + [last]) == Join(fields) + "," + last
  {
    if |fields| > 1 {
      assert (fields + [last])[1..] == fields[1..] + [last];
      JoinSnoc(fields[1..], last);
    }
  }

  /** `cell.replace("\"", "\"\"")`. */
  function DoubleQuotes(cell: string): string
  {
    if cell == [] then ""
    else (if cell[0] == '"' then "\"\"" else [cell[0]]) + DoubleQuotes(cell[1..])
  }

  predicate NeedsQuoting(cell: string)
  {
    ',' in cell || '"' in cell
  }

  /** The escaping rule: a cell with a comma or a double quote is quoted with
      its quotes doubled; any other cell, line breaks included, is written as
      it is. */
  function Escape(cell: string): (e: string)
    ensures NeedsQuoting(cell) ==> |e| >= 2 && e[0] == '"' && e[|e| - 1] == '"'
    ensures !NeedsQuoting(cell) ==> e == cell
  {
    if NeedsQuoting(cell) then "\"" + DoubleQuotes(cell) + "\"" else cell
  }

  /** The text of a cell value: null is the empty string. */
  function CellValue(value: Option<string>): string
  {
    if value.Some? then value.value else ""
  }

  /** The escaped cells of one row. */
  function Cells(row: seq<Option<string>>): (cells: seq<string>)
  {
    seq(|row|, k requires 0 <= k < |row| => Escape(CellValue(row[k])))
  }

  function Line(fields: seq<string>): string
  {
    Join(fields) + "\n"
  }

  /** The comma the writer owes after `i` of `n` fields: one after every
      field but the last. */
  function Pending(i: nat, n: nat): string
  {
    if 0 < i < n then "," else ""
  }

  /** Writing field `i` after the first `i` fields and the comma they owe
      gives the first `i + 1` fields joined. */
  lemma JoinStep(fields: seq<string>, i: nat)
    requires i < |fields|
    ensures Join(fields[..i]) + Pending(i, |fields|) + fields[i] == Join(fields[..i + 1])
  {
    assert fields[..i + 1] == fields[..i] + [fields[i]];
    if i > 0 {
      JoinSnoc(fields[..i], fields[i]);
    }
  }

  /** The header line and the lines of the first `k` rows. */
  function Written(t: Table, k: nat): string
    requires k <= |t.rows|
  {
    if k == 0 then Line(t.columnNames) else Written(t, k - 1) + Line(Cells(t.rows[k - 1]))
  }

  /** Writing more rows only appends: the header line stays at the front. */
  lemma {:induction false} HeaderFirst(t: Table, k: nat)
    requires k <= |t.rows|
    ensures Line(t.columnNames) <= Written(t, k)
  {
    if k > 0 {
      HeaderFirst(t, k - 1);
    }
  }

  /** The whole file: the unescaped header line, then one line per row. */
  function Document(t: Table): (d: string)
    ensures Line(t.columnNames) <= d
  {
    HeaderFirst(t, |t.rows|);
    Written(t, |t.rows|)
  }

  /** Writes the table as the exporter does: the header line, then the rows
      in order, each appended to the growing output. */
  method ExportToCsv(t: Table) returns (csv: string)
    requires Rectangular(t)
    ensures csv == Document(t)
  {
    csv := HeaderLine(t.columnNames);
    var row := 0;
    while row < |t.rows|
      invariant 0 <= row <= |t.rows|
      invariant csv == Written(t, row)
    {
      var line := RowLine(t.rows[row]);
      assert Written(t, row + 1) == csv + line;
      csv := csv + line;
      row := row + 1;
    }
  }

  /** The first loop of the exporter: the column names as they are,
      separated by commas, then a line break. */
  method HeaderLine(names: seq<string>) returns (line: string)
    ensures line == Line(names)
  {
    var n := |names|;
    line := "";
    var i := 0;
    while i < n
      invariant 0 <= i <= n
      invariant line == Join(names[..i]) + Pending(i, n)
    {
      JoinStep(names, i);
      line := line + names[i];
      if i < n - 1 {
        line := line + ",";
      }
      i := i + 1;
    }
    assert names[..n] == names;
    line := line + "\n";
  }

  /** The inner loop of the exporter: one row's cells, escaped and
      separated by commas, then a line break. */
  method RowLine(cells: seq<Option<string>>) returns (line: string)
    ensures line == Line(Cells(cells))
  {
    var n := |cells|;
    line := "";
    var col := 0;
    while col < n
      invariant 0 <= col <= n
      invariant line == Join(Cells(cells)[..col]) + Pending(col, n)
    {
      var cell := EscapeCell(cells[col]);
      JoinStep(Cells(cells), col);
      line := line + cell;
      if col < n - 1 {
        line := line + ",";
      }
      col := col + 1;
    }
    assert Cells(cells)[..n] == Cells(cells);
    line := line + "\n";
  }

  /** The cell text the exporter writes: the value's text (empty for null),
      reassigned to its quoted form when it holds a comma or a quote. */
  method EscapeCell(value: Option<string>) returns (cell: string)
    ensures cell == Escape(CellValue(value))
  {
    cell := if value.Some? then value.value else "";
    if ',' in cell || '"' in cell {
      cell := DoubleQuotes(cell);
      cell := "\"" + cell + "\"";
    }
  }

  // ------------------------------------------------ reading a record back

  /** Reads a quoted field after its opening quote, up to the closing quote
      ("" stands for one quote); returns the field and what follows. */
  function ParseQuoted(s: string): (r: (string, string))
    ensures |r.1| <= |s|
  {
    if s == [] then ("", "")
    else if s[0] == '"' then
      if |s| >= 2 && s[1] == '"' then
        var (f, rest) := ParseQuoted(s[2..]);
        ("\"" + f, rest)
      else ("", s[1..])
    else
      var (f, rest) := ParseQuoted(s[1..]);
      ([s[0]] + f, rest)
  }

  /** Reads an unquoted field up to the next comma or line break. */
  function ParseBare(s: string): (r: (string, string))
    ensures |r.1| <= |s|
  {
    if s == [] || s[0] == ',' || s[0] == '\n' then ("", s)
    else
      var (f, rest) := ParseBare(s[1..]);
      ([s[0]] + f, rest)
  }

  function ParseField(s: string): (r: (string, string))
    ensures |r.1| <= |s|
  {
    if s != [] && s[0] == '"' then ParseQuoted(s[1..]) else ParseBare(s)
  }

  /** Splits one record into fields as RFC 4180 reads them: a comma starts
      the next field, and anything else after a field (a line break outside
      quotes) ends the record. */
  function ParseRecord(s: string): seq<string>
    decreases |s|
  {
    var (f, rest) := ParseField(s);
    if rest != [] && rest[0] == ',' then [f] + ParseRecord(rest[1..]) else [f]
  }

  /** What follows a field: the end of the record or a separating comma. */
  predicate FieldEnd(tail: string)
  {
    tail == [] || tail[0] == ','
  }

  /** A cell that a reader gets back: one with no line break, or one the
      writer quotes (inside quotes a line break is field data). */
  predicate Readable(cell: string)
  {
    '\n' in cell ==> NeedsQuoting(cell)
  }

  lemma {:induction false} ParseBareOf(cell: string, tail: string)
    requires ',' !in cell && '\n' !in cell && FieldEnd(tail)
    ensures ParseBare(cell + tail) == (cell, tail)
  {
    if cell != [] {
      var s := cell + tail;
      assert cell[0] in cell;
      assert forall c :: c in cell[1..] ==> c in cell;
      assert s[0] == cell[0] && s[1..] == cell[1..] + tail;
      ParseBareOf(cell[1..], tail);
      assert cell == [cell[0]] + cell[1..];
    } else {
      assert cell + tail == tail;
    }
  }

  lemma {:induction false} ParseQuotedOf(cell: string, tail: string)
    requires FieldEnd(tail)
    ensures ParseQuoted(DoubleQuotes(cell) + "\"" + tail) == (cell, tail)
  {
    if cell == [] {
      assert ("" + "\"" + tail)[1..] == tail;
    } else {
      ParseQuotedOf(cell[1..], tail);
      assert cell == [cell[0]] + cell[1..];
      if cell[0] == '"' {
        assert (DoubleQuotes(cell) + "\"" + tail)[2..] == DoubleQuotes(cell[1..]) + "\"" + tail;
      } else {
        assert (DoubleQuotes(cell) + "\"" + tail)[1..] == DoubleQuotes(cell[1..]) + "\"" + tail;
      }
    }
  }

  /** An escaped cell reads back as the cell, whatever field follows it,
      unless it holds a line break the writer leaves unquoted. */
  lemma EscapeParses(cell: string, tail: string)
    requires Readable(cell) && FieldEnd(tail)
    ensures ParseField(Escape(cell) + tail) == (cell, tail)
  {
    var s := Escape(cell) + tail;
    if NeedsQuoting(cell) {
      assert s == "\"" + (DoubleQuotes(cell) + "\"" + tail);
      assert s[0] == '"' && s[1..] == DoubleQuotes(cell) + "\"" + tail;
      ParseQuotedOf(cell, tail);
    } else {
      assert s == cell + tail;
      assert s != [] ==> s[0] != '"' by {
        if cell != [] {
          assert s[0] == cell[0];
        }
      }
      ParseBareOf(cell, tail);
    }
  }

  /** A written record reads back as its cells, so it has exactly one field
      per cell and keeps every cell's text. */
  lemma {:induction false} RecordRoundTrip(cells: seq<string>)
    requires |cells| > 0 && forall k :: 0 <= k < |cells| ==> Readable(cells[k])
    ensures ParseRecord(Join(seq(|cells|, k requires 0 <= k < |cells| => Escape(cells[k])))) == cells
  {
    var escaped := seq(|cells|, k requires 0 <= k < |cells| => Escape(cells[k]));
    if |cells| == 1 {
      EscapeParses(cells[0], "");
      assert Escape(cells[0]) + "" == Escape(cells[0]);
    } else {
      assert Readable(cells[0]);
      assert forall k :: 0 <= k < |cells[1..]| ==> Readable(cells[1..][k]);
      var rest := Join(escaped[1..]);
      assert Join(escaped) == Escape(cells[0]) + ("," + rest);
      EscapeParses(cells[0], "," + rest);
      assert ("," + rest)[1..] == rest;
      assert escaped[1..] == seq(|cells[1..]|, k requires 0 <= k < |cells[1..]| => Escape(cells[1..][k]));
      RecordRoundTrip(cells[1..]);
    }
  }

  /** Each row line of the file, read back as a record, gives the row's cell
      values, one per column, when no value holds an unquoted line break. */
  lemma RowRoundTrip(t: Table, i: nat)
    requires Rectangular(t) && |t.columnNames| > 0 && i < |t.rows|
    requires forall k :: 0 <= k < |t.rows[i]| ==> Readable(CellValue(t.rows[i][k]))
    ensures var values := seq(|t.rows[i]|, k requires 0 <= k < |t.rows[i]| => CellValue(t.rows[i][k]));
      && ParseRecord(Join(Cells(t.rows[i]))) == values
      && |values| == |t.columnNames|
  {
    var row := t.rows[i];
    assert |row| == |t.columnNames|;
    var values := seq(|row|, k requires 0 <= k < |row| => CellValue(row[k]));
    assert Cells(row) == seq(|values|, k requires 0 <= k < |values| => Escape(values[k]));
    RecordRoundTrip(values);
  }

  /** A line break in a cell is not a reason to quote it. */
  lemma LineBreakNotQuoted(cell: string)
    requires '\n' in cell && !NeedsQuoting(cell)
    ensures Escape(cell) == cell
    ensures '\n' in Escape(cell)
  {
  }

  /** So such a cell does not read back: "a" + line break + "b" is written
      as it is, and a reader ends the record at the line break. */
  lemma LineBreakSplitsRecord()
    ensures ParseRecord(Join([Escape("a\nb")])) == ["a"]
  {
    assert Escape("a\nb") == "a\nb";
    var s := "a\nb";
    assert s[0] == 'a' && s[1..] == "\nb";
    assert ParseBare("\nb") == ("", "\nb");
    assert [s[0]] + "" == "a";
    assert ParseBare("a\nb") == ("a", "\nb");
  }

  // ----------------------------------------------------------- line count

  function Count(s: string, c: char): nat
  {
    if s == [] then 0 else (if s[0] == c then 1 else 0) + Count(s[1..], c)
  }

  lemma {:induction false} CountAppend(a: string, b: string, c: char)
    ensures Count(a + b, c) == Count(a, c) + Count(b, c)
  {
    if a != [] {
      assert (a + b)[0] == a[0] && (a + b)[1..] == a[1..] + b;
      CountAppend(a[1..], b, c);
    } else {
      assert a + b == b;
    }
  }

  lemma {:induction false} CountAbsent(s: string, c: char)
    requires c !in s
    ensures Count(s, c) == 0
  {
    if s != [] {
      CountAbsent(s[1..], c);
    }
  }

  lemma {:induction false} DoubleQuotesKeepsOthers(cell: string, c: char)
    requires c != '"'
    ensures c in DoubleQuotes(cell) <==> c in cell
  {
    if cell != [] {
      DoubleQuotesKeepsOthers(cell[1..], c);
      assert cell == [cell[0]] + cell[1..];
    }
  }

  lemma {:induction false} JoinAbsent(fields: seq<string>, c: char)
    requires c != ','
    requires forall f :: f in fields ==> c !in f
    ensures c !in Join(fields)
  {
    if |fields| > 1 {
      JoinAbsent(fields[1..], c);
    }
  }

  /** A line of fields free of line breaks holds exactly one. */
  lemma LineCount(fields: seq<string>)
    requires forall f :: f in fields ==> '\n' !in f
    ensures Count(Line(fields), '\n') == 1
  {
    JoinAbsent(fields, '\n');
    CountAbsent(Join(fields), '\n');
    CountAppend(Join(fields), "\n", '\n');
  }

  /** No cell value holds a line break. */
  predicate NoLineBreaks(t: Table)
  {
    && (forall name :: name in t.columnNames ==> '\n' !in name)
    && (forall r, v :: r in t.rows && v in r && v.Some? ==> '\n' !in v.value)
  }

  /** Escaping never introduces a line break. */
  lemma CellsFree(t: Table, i: nat)
    requires NoLineBreaks(t) && i < |t.rows|
    ensures forall f :: f in Cells(t.rows[i]) ==> '\n' !in f
  {
    var row := t.rows[i];
    forall f | f in Cells(row)
      ensures '\n' !in f
    {
      var k :| 0 <= k < |row| && f == Escape(CellValue(row[k]));
      var v := CellValue(row[k]);
      assert row in t.rows && row[k] in row;
      assert '\n' !in v;
      DoubleQuotesKeepsOthers(v, '\n');
      if NeedsQuoting(v) {
        assert f == "\"" + DoubleQuotes(v) + "\"";
      }
    }
  }

  lemma {:induction false} WrittenCount(t: Table, k: nat)
    requires NoLineBreaks(t) && k <= |t.rows|
    ensures Count(Written(t, k), '\n') == k + 1
  {
    if k == 0 {
      LineCount(t.columnNames);
    } else {
      WrittenCount(t, k - 1);
      CellsFree(t, k - 1);
      LineCount(Cells(t.rows[k - 1]));
      CountAppend(Written(t, k - 1), Line(Cells(t.rows[k - 1])), '\n');
    }
  }

  /** Without line breaks in the data, the file has one line for the header
      and one per row, and ends with a line break. */
  lemma DocumentLines(t: Table)
    requires NoLineBreaks(t)
    ensures Count(Document(t), '\n') == |t.rows| + 1
    ensures Document(t)[|Document(t)| - 1] == '\n'
  {
    WrittenCount(t, |t.rows|);
  }
}

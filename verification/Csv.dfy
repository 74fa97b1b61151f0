/** Delimited text: the parser, and the two printers that it reads back. */
module Csv {
  import opened Text
  import opened Statements

  type Row = seq<string>

  // ----- the parser -----

  /** Where the parser is: the rows and fields read, the field being read, whether it is inside quotes. */
  datatype State = State(rows: seq<Row>, row: Row, field: string, quoted: bool)

  const START := State([], [], "", false)

  function EndField(st: State): State { st.(row := st.row + [st.field], field := "") }

  function EndRow(st: State): State { State(st.rows + [st.row + [st.field]], [], "", false) }

  function AddChar(st: State, c: char): State { st.(field := st.field + [c]) }

  predicate At(s: string, i: nat, c: char) { i < |s| && s[i] == c }

  /** One character, or a pair that counts as one; `next` is where to read on. */
  function Step(s: string, d: char, i: nat, st: State): (State, nat)
    requires i < |s|
  {
    if st.quoted then
      if s[i] != '"' then (AddChar(st, s[i]), i + 1)
      else if At(s, i + 1, '"') then (AddChar(st, '"'), i + 2)
      else (st.(quoted := false), i + 1)
    else if s[i] == '"' && st.field == "" then (st.(quoted := true), i + 1)
    else if s[i] == d then (EndField(st), i + 1)
    else if s[i] == '\n' || s[i] == '\r' then (EndRow(st), if s[i] == '\r' && At(s, i + 1, '\n') then i + 2 else i + 1)
    else (AddChar(st, s[i]), i + 1)
  }

  function AtEnd(st: State): seq<Row> { if st.field != "" || st.row != [] then EndRow(st).rows else st.rows }

  /** All rows of a text from `i` on. */
  function Rows(s: string, d: char, i: nat, st: State): seq<Row>
    decreases |s| - i
  {
    if i >= |s| then AtEnd(st) else Rows(s, d, Step(s, d, i, st).1, Step(s, d, i, st).0)
  }

  /** A row that is no row: a blank line. */
  predicate IsBlankRow(row: Row) { row == [] || row == [""] }

  function Filter(rows: seq<Row>): seq<Row> {
    if rows == [] then [] else (if IsBlankRow(rows[0]) then [] else [rows[0]]) + Filter(rows[1..])
  }

  const BOM := '\U{FEFF}'

  function WithoutBom(text: string): string { if text != "" && text[0] == BOM then text[1..] else text }

  function ParsedCsv(text: string, d: char): seq<Row> { Filter(Rows(WithoutBom(text), d, 0, START)) }

  method ParseCsv(text: string, d: char) returns (parsed: seq<Row>)
    ensures parsed == ParsedCsv(text, d)
  {
    var input := WithoutBom(text);
    var rows: seq<Row>, row: Row, field, quoted := [], [], "", false;
    var i := 0;
    while i < |input|
      invariant Rows(input, d, i, State(rows, row, field, quoted)) == Rows(input, d, 0, START)
      decreases |input| - i
    {
      var ch := input[i];
      if quoted {
        if ch == '"' {
          if i + 1 < |input| && input[i + 1] == '"' {
            field := field + ['"'];
            i := i + 1;
          } else {
            quoted := false;
          }
        } else {
          field := field + [ch];
        }
      } else if ch == '"' && field == "" {
        quoted := true;
      } else if ch == d {
        row := row + [field];
        field := "";
      } else if ch == '\n' || ch == '\r' {
        if ch == '\r' && i + 1 < |input| && input[i + 1] == '\n' { i := i + 1; }
        rows := rows + [row + [field]];
        row, field := [], "";
      } else {
        field := field + [ch];
      }
      i := i + 1;
    }
    if field != "" || row != [] { rows := rows + [row + [field]]; }
    parsed := Filter(rows);
  }

  // ----- the printers -----

  /** A printer: its delimiter, and whether it quotes a value with a carriage return. */
  datatype Style = Style(delimiter: char, quotesCr: bool)

  const TSV := Style('\t', true)
  const COMMA_SEPARATED := Style(',', false)

  predicate IsSpecial(style: Style, c: char) {
    c == style.delimiter || c == '"' || c == '\n' || (style.quotesCr && c == '\r')
  }

  predicate NeedsQuotes(style: Style, v: string) { exists k :: 0 <= k < |v| && IsSpecial(style, v[k]) }

  function Field(style: Style, v: string): string { if NeedsQuotes(style, v) then "\"" + Double(v, '"') + "\"" else v }

  function Fields(style: Style, row: Row): seq<string> {
    if row == [] then [] else [Field(style, row[0])] + Fields(style, row[1..])
  }

  function Line(style: Style, row: Row): string { Join(Fields(style, row), [style.delimiter]) }

  function Lines(style: Style, rows: seq<Row>): seq<string> {
    if rows == [] then [] else [Line(style, rows[0])] + Lines(style, rows[1..])
  }

  /** The header and the rows, as texts. */
  function Table(style: Style, rows: seq<Row>): string { Join(Lines(style, rows), "\n") }

  function RowsToTsv(columns: Row, rows: seq<Row>): string { Table(TSV, [columns] + rows) }

  function ToCsv(columns: Row, rows: seq<Row>): string { Table(COMMA_SEPARATED, [columns] + rows) }

  // ----- reading what was printed -----

  predicate StyleOk(style: Style) {
    style.delimiter != '"' && style.delimiter != '\n' && style.delimiter != '\r' && style.delimiter != BOM
  }

  /** Reading a text without special characters adds it to the field. */
  lemma {:induction false} ReadPlain(s: string, d: char, i: nat, st: State, v: string)
    requires FoundAt(v, s, i) && !st.quoted && (v != "" ==> st.field != "" || v[0] != '"')
    requires forall k :: 0 <= k < |v| ==> v[k] != d && v[k] != '\n' && v[k] != '\r' && v[k] != '"'
    ensures Rows(s, d, i, st) == Rows(s, d, i + |v|, st.(field := st.field + v))
    decreases |v|
  {
    if v == "" {
      assert st.field + v == st.field;
    } else {
      assert s[i + 0] == v[0] && v == [v[0]] + v[1..];
      FoundInParts([v[0]], v[1..], s, i);
      ReadPlain(s, d, i + 1, AddChar(st, v[0]), v[1..]);
      assert st.field + [v[0]] + v[1..] == st.field + v;
    }
  }

  /** Reading a text with its quotes doubled, inside quotes, adds the text to the field. */
  lemma {:induction false} ReadDoubled(s: string, d: char, i: nat, st: State, v: string)
    requires FoundAt(Double(v, '"'), s, i) && st.quoted
    ensures Rows(s, d, i, st) == Rows(s, d, i + |Double(v, '"')|, st.(field := st.field + v))
    decreases |v|
  {
    if v == "" {
      assert st.field + v == st.field;
    } else {
      var first := if v[0] == '"' then "\"\"" else [v[0]];
      FoundInParts(first, Double(v[1..], '"'), s, i);
      assert s[i + 0] == first[0] && (v[0] == '"' ==> s[i + 1] == first[1]);
      ReadDoubled(s, d, i + |first|, AddChar(st, v[0]), v[1..]);
      assert st.field + [v[0]] + v[1..] == st.field + v;
    }
  }

  /** Reading a printed value, at the start of a field. */
  lemma ReadField(s: string, style: Style, i: nat, st: State, v: string)
    requires StyleOk(style) && FoundAt(Field(style, v), s, i) && !st.quoted && st.field == "" && !BareCr(style, v)
    requires i + |Field(style, v)| < |s| ==>
      s[i + |Field(style, v)|] == style.delimiter || s[i + |Field(style, v)|] == '\n'
    ensures Rows(s, style.delimiter, i, st) == Rows(s, style.delimiter, i + |Field(style, v)|, st.(field := v))
  {
    assert "" + v == v;
    if NeedsQuotes(style, v) {
      ReadQuoted(s, style.delimiter, i, st, v);
    } else {
      NotSpecial(style, v);
      ReadPlain(s, style.delimiter, i, st, v);
    }
  }

  /** A value with a carriage return that is printed without quotes. */
  predicate BareCr(style: Style, v: string) { !NeedsQuotes(style, v) && '\r' in v }

  lemma NotSpecial(style: Style, v: string)
    requires !NeedsQuotes(style, v) && !BareCr(style, v)
    ensures forall k :: 0 <= k < |v| ==> v[k] != style.delimiter && v[k] != '\n' && v[k] != '\r' && v[k] != '"'
  {
    forall k | 0 <= k < |v| ensures v[k] != style.delimiter && v[k] != '\n' && v[k] != '\r' && v[k] != '"' {
      assert !IsSpecial(style, v[k]) && v[k] in v;
    }
  }

  lemma ReadQuoted(s: string, d: char, i: nat, st: State, v: string)
    requires FoundAt("\"" + Double(v, '"') + "\"", s, i) && !st.quoted && st.field == ""
    requires var e := i + |Double(v, '"')| + 2; e < |s| ==> s[e] != '"'
    ensures Rows(s, d, i, st) == Rows(s, d, i + |Double(v, '"')| + 2, st.(field := v))
  {
    var inner := Double(v, '"');
    FoundInParts("\"" + inner, "\"", s, i);
    FoundInParts("\"", inner, s, i);
    var q := "\"";
    assert s[i + 0] == q[0] && s[i + 1 + |inner| + 0] == q[0];
    ReadDoubled(s, d, i + 1, st.(quoted := true), v);
    assert "" + v == v;
  }

  predicate NoBareCr(style: Style, row: Row) { forall k :: 0 <= k < |row| ==> !BareCr(style, row[k]) }

  /** A state at the start of a field, with some fields of its row read. */
  function InRow(rows: seq<Row>, row: Row): State { State(rows, row, "", false) }

  /** What comes after the first field of a line. */
  function LineRest(style: Style, row: Row): string {
    if |row| <= 1 then "" else [style.delimiter] + Line(style, row[1..])
  }

  lemma FirstOfLine(style: Style, row: Row)
    requires row != []
    ensures Line(style, row) == Field(style, row[0]) + LineRest(style, row)
  {
    var fields := Fields(style, row);
    assert fields[1..] == Fields(style, row[1..]);
    if |row| == 1 {
      assert row[1..] == [] && fields == [Field(style, row[0])];
      assert Field(style, row[0]) + "" == Field(style, row[0]);
    } else {
      FieldsCount(style, row);
      assert Field(style, row[0]) + [style.delimiter] + Line(style, row[1..]) == Field(style, row[0])
        + ([style.delimiter] + Line(style, row[1..]));
    }
  }

  lemma {:induction false} FieldsCount(style: Style, row: Row)
    ensures |Fields(style, row)| == |row|
    decreases |row|
  {
    if row != [] { FieldsCount(style, row[1..]); }
  }

  /** A text, one character and another text. */
  lemma ThreeParts(a: string, c: char, b: string, s: string, i: nat)
    requires FoundAt(a + ([c] + b), s, i)
    ensures FoundAt(a, s, i) && i + |a| < |s| && s[i + |a|] == c && FoundAt(b, s, i + |a| + 1)
  {
    FoundInParts(a, [c] + b, s, i);
    FoundInParts([c], b, s, i + |a|);
    assert s[i + |a| + 0] == [c][0];
  }

  lemma {:induction false} LineOfMore(style: Style, row: Row)
    requires |row| > 1
    ensures Line(style, row) == Field(style, row[0]) + ([style.delimiter] + Line(style, row[1..]))
  {
    FirstOfLine(style, row);
  }

  lemma {:induction false} LineParts(s: string, style: Style, i: nat, row: Row)
    requires row != [] && FoundAt(Line(style, row), s, i)
    ensures var e := i + |Field(style, row[0])|;
      && FoundAt(Field(style, row[0]), s, i)
      && if |row| == 1 then |Line(style, row)| == |Field(style, row[0])|
         else |Line(style, row)| == |Field(style, row[0])| + 1 + |Line(style, row[1..])|
              && s[e] == style.delimiter && FoundAt(Line(style, row[1..]), s, e + 1)
  {
    if |row| == 1 {
      FirstOfLine(style, row);
      assert Line(style, row) == Field(style, row[0]);
    } else {
      LineOfMore(style, row);
      ThreeParts(Field(style, row[0]), style.delimiter, Line(style, row[1..]), s, i);
    }
  }

  lemma OneByOne(before: Row, row: Row)
    requires row != []
    ensures before + [row[0]] + row[1..] == before + row
  {}

  /** Reading the first field of a line of several, with its delimiter. */
  lemma ReadFirst(s: string, style: Style, i: nat, rows: seq<Row>, before: Row, row: Row)
    requires StyleOk(style) && |row| > 1 && NoBareCr(style, row) && FoundAt(Line(style, row), s, i)
    ensures var e := i + |Field(style, row[0])|;
      e < |s| && Rows(s, style.delimiter, i, InRow(rows, before))
        == Rows(s, style.delimiter, e + 1, InRow(rows, before + [row[0]]))
  {
    LineParts(s, style, i, row);
    ReadField(s, style, i, InRow(rows, before), row[0]);
  }

  lemma ReadLastField(s: string, style: Style, i: nat, rows: seq<Row>, before: Row, v: string)
    requires StyleOk(style) && !BareCr(style, v) && FoundAt(Field(style, v), s, i)
    requires i + |Field(style, v)| < |s| && s[i + |Field(style, v)|] == '\n'
    ensures Rows(s, style.delimiter, i, InRow(rows, before))
      == Rows(s, style.delimiter, i + |Field(style, v)| + 1, InRow(rows + [before + [v]], []))
  {
    ReadField(s, style, i, InRow(rows, before), v);
  }

  /** Reading a printed line and its line feed. */
  lemma {:induction false} ReadLine(s: string, style: Style, i: nat, rows: seq<Row>, before: Row, row: Row)
    requires StyleOk(style) && row != [] && NoBareCr(style, row) && FoundAt(Line(style, row), s, i)
    requires i + |Line(style, row)| < |s| && s[i + |Line(style, row)|] == '\n'
    ensures Rows(s, style.delimiter, i, InRow(rows, before))
      == Rows(s, style.delimiter, i + |Line(style, row)| + 1, InRow(rows + [before + row], []))
    decreases |row|
  {
    LineParts(s, style, i, row);
    OneByOne(before, row);
    if |row| == 1 {
      ReadLastField(s, style, i, rows, before, row[0]);
      assert before + [row[0]] == before + row;
    } else {
      ReadFirst(s, style, i, rows, before, row);
      ReadLine(s, style, i + |Field(style, row[0])| + 1, rows, before + [row[0]], row[1..]);
    }
  }

  /** Reading a printed line at the end of the text. */
  lemma {:induction false} ReadLastLine(s: string, style: Style, i: nat, rows: seq<Row>, before: Row, row: Row)
    requires StyleOk(style) && row != [] && NoBareCr(style, row) && FoundAt(Line(style, row), s, i)
    requires i + |Line(style, row)| == |s|
    ensures Rows(s, style.delimiter, i, InRow(rows, before)) == if before + row == [""] then rows
      else rows + [before + row]
    decreases |row|
  {
    LineParts(s, style, i, row);
    OneByOne(before, row);
    if |row| == 1 {
      ReadField(s, style, i, InRow(rows, before), row[0]);
      assert before + [row[0]] == before + row;
      assert before == [] ==> before + row == [row[0]];
    } else {
      ReadFirst(s, style, i, rows, before, row);
      ReadLastLine(s, style, i + |Field(style, row[0])| + 1, rows, before + [row[0]], row[1..]);
    }
  }

  /** The row that a line gives: one empty field for a line without fields. */
  function Shown(row: Row): Row { if row == [] then [""] else row }

  lemma {:induction false} FilterFirst(row: Row, rows: seq<Row>)
    ensures Filter([row] + rows) == (if IsBlankRow(row) then [] else [row]) + Filter(rows)
  {
    assert ([row] + rows)[1..] == rows;
  }

  lemma {:induction false} FilterBoth(a: seq<Row>, b: seq<Row>)
    ensures Filter(a + b) == Filter(a) + Filter(b)
    decreases |a|
  {
    if a == [] {
      assert a + b == b;
    } else {
      FilterBoth(a[1..], b);
      assert a == [a[0]] + a[1..] && a + b == [a[0]] + (a[1..] + b);
      FilterFirst(a[0], a[1..]);
      FilterFirst(a[0], a[1..] + b);
    }
  }

  lemma FilterOne(a: seq<Row>, row: Row)
    ensures Filter(a + [row]) == Filter(a) + if IsBlankRow(row) then [] else [row]
  {
    FilterBoth(a, [row]);
    assert [row][1..] == [];
  }

  lemma FirstOfTable(style: Style, rows: seq<Row>)
    requires rows != []
    ensures Table(style, rows) == Line(style, rows[0]) + if |rows| == 1 then "" else "\n" + Table(style, rows[1..])
  {
    var lines := Lines(style, rows);
    assert lines[1..] == Lines(style, rows[1..]);
    if |rows| == 1 {
      assert rows[1..] == [] && lines == [Line(style, rows[0])];
      assert Line(style, rows[0]) + "" == Line(style, rows[0]);
    } else {
      LinesCount(style, rows);
      assert Line(style, rows[0]) + "\n" + Table(style, rows[1..]) == Line(style, rows[0])
        + ("\n" + Table(style, rows[1..]));
    }
  }

  lemma {:induction false} LinesCount(style: Style, rows: seq<Row>)
    ensures |Lines(style, rows)| == |rows|
    decreases |rows|
  {
    if rows != [] { LinesCount(style, rows[1..]); }
  }

  ghost predicate NoBareCrIn(style: Style, rows: seq<Row>) { forall k :: 0 <= k < |rows| ==> NoBareCr(style, rows[k]) }

  lemma TableParts(s: string, style: Style, i: nat, rows: seq<Row>)
    requires |rows| > 1 && FoundAt(Table(style, rows), s, i)
    ensures var e := i + |Line(style, rows[0])|;
      && FoundAt(Line(style, rows[0]), s, i) && e < |s| && s[e] == '\n' && FoundAt(Table(style, rows[1..]), s, e + 1)
      && |Table(style, rows)| == |Line(style, rows[0])| + 1 + |Table(style, rows[1..])|
  {
    FirstOfTable(style, rows);
    FoundInParts(Line(style, rows[0]), "\n" + Table(style, rows[1..]), s, i);
    FoundInParts("\n", Table(style, rows[1..]), s, i + |Line(style, rows[0])|);
    assert s[i + |Line(style, rows[0])| + 0] == "\n"[0];
  }

  lemma ReadFirstRow(s: string, style: Style, i: nat, before: seq<Row>, rows: seq<Row>)
    requires StyleOk(style) && |rows| > 1 && NoBareCr(style, rows[0]) && FoundAt(Table(style, rows), s, i)
    ensures var e := i + |Line(style, rows[0])|;
      Rows(s, style.delimiter, i, InRow(before, []))
        == Rows(s, style.delimiter, e + 1, InRow(before + [Shown(rows[0])], []))
  {
    TableParts(s, style, i, rows);
    if rows[0] != [] {
      ReadLine(s, style, i, before, [], rows[0]);
      assert [] + rows[0] == rows[0];
    } else {
      assert [] + [""] == [""];
    }
  }

  lemma ReadLastRow(s: string, style: Style, i: nat, before: seq<Row>, row: Row)
    requires StyleOk(style) && NoBareCr(style, row) && FoundAt(Line(style, row), s, i) && |s| == i + |Line(style, row)|
    ensures Rows(s, style.delimiter, i, InRow(before, [])) == if IsBlankRow(row) then before else before + [row]
  {
    if row != [] {
      ReadLastLine(s, style, i, before, [], row);
      assert [] + row == row;
    }
  }

  lemma SingleRow(style: Style, rows: seq<Row>)
    requires |rows| == 1
    ensures Table(style, rows) == Line(style, rows[0])
  {
    FirstOfTable(style, rows);
    assert Line(style, rows[0]) + "" == Line(style, rows[0]);
  }

  lemma FilterLast(before: seq<Row>, rows: seq<Row>)
    requires |rows| == 1
    ensures Filter(if IsBlankRow(rows[0]) then before else before + [rows[0]]) == Filter(before + rows)
  {
    FilterOne(before, rows[0]);
    assert rows == [rows[0]];
  }

  lemma FilterStep(before: seq<Row>, rows: seq<Row>)
    requires rows != []
    ensures Filter(before + [Shown(rows[0])] + rows[1..]) == Filter(before + rows)
  {
    assert before + rows == before + [rows[0]] + rows[1..];
    FilterBoth(before + [Shown(rows[0])], rows[1..]);
    FilterBoth(before + [rows[0]], rows[1..]);
    FilterOne(before, Shown(rows[0]));
    FilterOne(before, rows[0]);
  }

  /** Reading a printed table gives its rows, besides the blank ones. */
  /** What is left of a table behind its first row. */
  lemma {:induction false} TableGoesOn(s: string, style: Style, i: nat, before: seq<Row>, rows: seq<Row>)
    requires StyleOk(style) && |rows| > 1 && NoBareCrIn(style, rows) && FoundAt(Table(style, rows), s, i)
    requires |s| == i + |Table(style, rows)|
    ensures var e := i + |Line(style, rows[0])| + 1;
      && FoundAt(Table(style, rows[1..]), s, e) && |s| == e + |Table(style, rows[1..])|
      && Rows(s, style.delimiter, i, InRow(before, []))
        == Rows(s, style.delimiter, e, InRow(before + [Shown(rows[0])], []))
      && Filter(before + [Shown(rows[0])] + rows[1..]) == Filter(before + rows)
  {
    TableParts(s, style, i, rows);
    ReadFirstRow(s, style, i, before, rows);
    FilterStep(before, rows);
  }

  lemma {:induction false} ReadTable(s: string, style: Style, i: nat, before: seq<Row>, rows: seq<Row>)
    requires StyleOk(style) && rows != [] && NoBareCrIn(style, rows) && FoundAt(Table(style, rows), s, i)
    requires |s| == i + |Table(style, rows)|
    ensures Filter(Rows(s, style.delimiter, i, InRow(before, []))) == Filter(before + rows)
    decreases |rows|
  {
    if |rows| == 1 {
      SingleRow(style, rows);
      ReadLastRow(s, style, i, before, rows[0]);
      FilterLast(before, rows);
    } else {
      TableGoesOn(s, style, i, before, rows);
      ReadTable(s, style, i + |Line(style, rows[0])| + 1, before + [Shown(rows[0])], rows[1..]);
    }
  }

  predicate StartsWithBom(text: string) { text != "" && text[0] == BOM }

  lemma ReadPrinted(style: Style, rows: seq<Row>)
    requires StyleOk(style) && rows != [] && NoBareCrIn(style, rows) && !StartsWithBom(Table(style, rows))
    ensures ParsedCsv(Table(style, rows), style.delimiter) == Filter(rows)
  {
    var s := Table(style, rows);
    FoundWhole(s);
    ReadTable(s, style, 0, [], rows);
    assert [] + rows == rows;
  }

  // ----- what is not read back -----

  /** Outside quotes, with no value among the rows that has a carriage return but no quotes, nor in the field. */
  ghost predicate CleanState(style: Style, st: State) {
    NoBareCrIn(style, st.rows) && NoBareCr(style, st.row) && !st.quoted && !BareCr(style, st.field)
  }

  /** … and no carriage return in the field at all. */
  ghost predicate PlainState(style: Style, st: State) { CleanState(style, st) && '\r' !in st.field }

  lemma StepKeepsClean(style: Style, st: State, c: char)
    requires StyleOk(style) && CleanState(style, st)
    ensures CleanState(style, EndField(st)) && CleanState(style, EndRow(st))
    ensures c != '\r' && PlainState(style, st) ==> PlainState(style, AddChar(st, c))
    ensures PlainState(style, EndField(st)) && PlainState(style, EndRow(st))
  {}

  /** Reading a value that is printed without quotes leaves no carriage return in any field. */
  lemma {:induction false} ReadPlainClean(s: string, style: Style, i: nat, st: State, v: string)
      returns (after: State, j: nat)
    requires StyleOk(style) && FoundAt(v, s, i) && PlainState(style, st) && !NeedsQuotes(style, v)
    ensures Rows(s, style.delimiter, i, st) == Rows(s, style.delimiter, j, after) && PlainState(style, after)
    ensures j == i + |v| || (j == i + |v| + 1 && At(s, i + |v|, '\n') && after.row == [] && after.field == "")
    decreases |v|
  {
    if v == "" {
      after, j := st, i;
    } else {
      assert s[i + 0] == v[0] && v == [v[0]] + v[1..];
      FoundInParts([v[0]], v[1..], s, i);
      PlainRest(style, v);
      StepKeepsClean(style, st, v[0]);
      after, j := Step(s, style.delimiter, i, st).0, Step(s, style.delimiter, i, st).1;
      if j == i + 1 {
        after, j := ReadPlainClean(s, style, i + 1, after, v[1..]);
      } else {
        FollowedByFeed(s, style, i, v);
      }
    }
  }

  lemma PlainRest(style: Style, v: string)
    requires v != "" && !NeedsQuotes(style, v)
    ensures !NeedsQuotes(style, v[1..]) && v[0] != '"' && v[0] != style.delimiter && v[0] != '\n'
  {
    assert !IsSpecial(style, v[0]);
    forall k | 0 <= k < |v[1..]| ensures !IsSpecial(style, v[1..][k]) { assert v[1..][k] == v[k + 1]; }
  }

  /** A line feed after a carriage return of such a value is not in the value. */
  lemma FollowedByFeed(s: string, style: Style, i: nat, v: string)
    requires v != "" && !NeedsQuotes(style, v) && FoundAt(v, s, i) && At(s, i + 1, '\n')
    ensures |v| == 1
  {
    if |v| > 1 { assert s[i + 1] == v[1] && IsSpecial(style, v[1]); }
  }

  /** Reading a printed value up to the delimiter or line feed after it, or the end. */
  lemma ReadFieldClean(s: string, style: Style, i: nat, st: State, v: string) returns (after: State, j: nat)
    requires StyleOk(style) && FoundAt(Field(style, v), s, i) && CleanState(style, st) && st.field == ""
    requires var e := i + |Field(style, v)|; e < |s| ==> s[e] == style.delimiter || s[e] == '\n'
    ensures Rows(s, style.delimiter, i, st) == Rows(s, style.delimiter, j, after) && CleanState(style, after)
    ensures var e := i + |Field(style, v)|;
      j == e || (j == e + 1 && At(s, e, '\n') && after.row == [] && after.field == "")
  {
    if NeedsQuotes(style, v) {
      ReadQuoted(s, style.delimiter, i, st, v);
      after, j := st.(field := v), i + |Field(style, v)|;
    } else {
      after, j := ReadPlainClean(s, style, i, st, v);
    }
  }

  /**
   * Reading a printed line and its line feed, whatever the values: no carriage return without quotes is read into a
   * field.
   */
  lemma {:induction false} ReadLineClean(s: string, style: Style, i: nat, st: State, row: Row) returns (after: State)
    requires StyleOk(style) && row != [] && FoundAt(Line(style, row), s, i) && CleanState(style, st) && st.field == ""
    requires i + |Line(style, row)| < |s| && s[i + |Line(style, row)|] == '\n'
    ensures Rows(s, style.delimiter, i, st) == Rows(s, style.delimiter, i + |Line(style, row)| + 1, after)
    ensures CleanState(style, after) && after.row == [] && after.field == ""
    decreases |row|
  {
    LineParts(s, style, i, row);
    var j;
    after, j := ReadFieldClean(s, style, i, st, row[0]);
    StepKeepsClean(style, after, '"');
    if |row| == 1 {
      if j == i + |Line(style, row)| { after := EndRow(after); }
    } else {
      after := ReadLineClean(s, style, j + 1, EndField(after), row[1..]);
    }
  }

  lemma {:induction false} ReadLastLineClean(s: string, style: Style, i: nat, st: State, row: Row)
    requires StyleOk(style) && FoundAt(Line(style, row), s, i) && CleanState(style, st) && st.field == ""
    requires i + |Line(style, row)| == |s|
    ensures NoBareCrIn(style, Rows(s, style.delimiter, i, st))
    decreases |row|
  {
    if row == [] {
      StepKeepsClean(style, st, '"');
    } else {
      LineParts(s, style, i, row);
      var after, j := ReadFieldClean(s, style, i, st, row[0]);
      StepKeepsClean(style, after, '"');
      if |row| > 1 { ReadLastLineClean(s, style, j + 1, EndField(after), row[1..]); }
    }
  }

  lemma {:induction false} ReadTableClean(s: string, style: Style, i: nat, st: State, rows: seq<Row>)
    requires StyleOk(style) && rows != [] && FoundAt(Table(style, rows), s, i) && |s| == i + |Table(style, rows)|
    requires CleanState(style, st) && st.row == [] && st.field == ""
    ensures NoBareCrIn(style, Rows(s, style.delimiter, i, st))
    decreases |rows|
  {
    if |rows| == 1 {
      SingleRow(style, rows);
      ReadLastLineClean(s, style, i, st, rows[0]);
    } else {
      TableParts(s, style, i, rows);
      var e := i + |Line(style, rows[0])|;
      var after := EndRow(st);
      StepKeepsClean(style, st, '"');
      if rows[0] != [] { after := ReadLineClean(s, style, i, st, rows[0]); }
      ReadTableClean(s, style, e + 1, after, rows[1..]);
    }
  }

  lemma {:induction false} FilterHolds(rows: seq<Row>, row: Row)
    ensures row in Filter(rows) <==> row in rows && !IsBlankRow(row)
    decreases |rows|
  {
    if rows != [] { FilterHolds(rows[1..], row); }
  }

  lemma BareCrIsLost(style: Style, printed: seq<Row>, rows: seq<Row>)
    requires StyleOk(style) && printed != [] && !NoBareCrIn(style, rows)
    ensures Filter(Rows(Table(style, printed), style.delimiter, 0, START)) != Filter(rows)
  {
    var s := Table(style, printed);
    var read := Rows(s, style.delimiter, 0, START);
    FoundWhole(s);
    ReadTableClean(s, style, 0, START, printed);
    var k :| 0 <= k < |rows| && !NoBareCr(style, rows[k]);
    FilterHolds(rows, rows[k]);
    FilterHolds(read, rows[k]);
  }

  /**
   * A table whose text starts with a byte order mark, which is its first value's first character: the table without
   * it.
   */
  function Unmarked(rows: seq<Row>): seq<Row>
    requires rows != [] && rows[0] != [] && rows[0][0] != ""
  {
    [[rows[0][0][1..]] + rows[0][1..]] + rows[1..]
  }

  lemma UnmarkedValue(style: Style, v: string)
    requires StyleOk(style) && v != "" && !NeedsQuotes(style, v)
    ensures !NeedsQuotes(style, v[1..]) && (v[0] == BOM ==> BareCr(style, v[1..]) == BareCr(style, v))
  {
    PlainRest(style, v);
    assert v == [v[0]] + v[1..];
  }

  lemma FirstIsMarked(style: Style, rows: seq<Row>)
    requires StyleOk(style) && rows != [] && StartsWithBom(Table(style, rows))
    ensures rows[0] != [] && rows[0][0] != "" && rows[0][0][0] == BOM && !NeedsQuotes(style, rows[0][0])
  {
    FirstOfTable(style, rows);
    if rows[0] != [] {
      FirstOfLine(style, rows[0]);
      assert |Field(style, rows[0][0])| > 0 ==> Table(style, rows)[0] == Field(style, rows[0][0])[0];
    }
  }

  lemma LineOfUnmarked(style: Style, row: Row)
    requires StyleOk(style) && row != [] && row[0] != "" && !NeedsQuotes(style, row[0])
    ensures Line(style, row) == [row[0][0]] + Line(style, [row[0][1..]] + row[1..])
  {
    var other := [row[0][1..]] + row[1..];
    UnmarkedValue(style, row[0]);
    FirstOfLine(style, row);
    FirstOfLine(style, other);
    assert other[0] == row[0][1..] && other[1..] == row[1..];
    SplitFirst(row[0], LineRest(style, row));
  }

  lemma SplitFirst(v: string, rest: string)
    requires v != ""
    ensures v + rest == [v[0]] + (v[1..] + rest)
  {}

  lemma TableOfUnmarked(style: Style, rows: seq<Row>)
    requires StyleOk(style) && rows != [] && rows[0] != [] && rows[0][0] != "" && !NeedsQuotes(style, rows[0][0])
    ensures Table(style, rows) == [rows[0][0][0]] + Table(style, Unmarked(rows))
  {
    LineOfUnmarked(style, rows[0]);
    FirstOfTable(style, rows);
    FirstOfTable(style, Unmarked(rows));
    assert Unmarked(rows)[1..] == rows[1..];
  }

  lemma UnmarkedDiffers(style: Style, rows: seq<Row>)
    requires rows != [] && rows[0] != [] && rows[0][0] != ""
    ensures Filter(Unmarked(rows)) != Filter(rows)
  {
    var other := Unmarked(rows);
    assert other[1..] == rows[1..] && other[0][0] == rows[0][0][1..];
    if !IsBlankRow(other[0]) { assert ([other[0]] + Filter(rows[1..]))[0] != ([rows[0]] + Filter(rows[1..]))[0]; }
  }

  lemma UnmarkedIsAsClean(style: Style, rows: seq<Row>)
    requires StyleOk(style) && rows != [] && rows[0] != [] && rows[0][0] != "" && rows[0][0][0] == BOM
    requires !NeedsQuotes(style, rows[0][0])
    requires NoBareCrIn(style, rows)
    ensures NoBareCrIn(style, Unmarked(rows))
  {
    var other := Unmarked(rows);
    UnmarkedValue(style, rows[0][0]);
    forall k | 0 <= k < |other| ensures NoBareCr(style, other[k]) {
      assert NoBareCr(style, rows[k]);
    }
  }

  lemma BomIsLost(style: Style, rows: seq<Row>)
    requires StyleOk(style) && rows != [] && NoBareCrIn(style, rows) && StartsWithBom(Table(style, rows))
    ensures ParsedCsv(Table(style, rows), style.delimiter) != Filter(rows)
  {
    FirstIsMarked(style, rows);
    TableOfUnmarked(style, rows);
    UnmarkedIsAsClean(style, rows);
    var s := Table(style, Unmarked(rows));
    FoundWhole(s);
    ReadTable(s, style, 0, [], Unmarked(rows));
    assert [] + Unmarked(rows) == Unmarked(rows);
    assert Table(style, rows)[1..] == s;
    UnmarkedDiffers(style, rows);
  }

  /**
   * A printed table is read back, without its blank rows, exactly when its text does not start with a byte order mark
   * and no value has a carriage return without being quoted for it.
   */
  lemma ReadBackExactly(style: Style, rows: seq<Row>)
    requires StyleOk(style) && rows != []
    ensures ParsedCsv(Table(style, rows), style.delimiter) == Filter(rows)
      <==> !StartsWithBom(Table(style, rows)) && NoBareCrIn(style, rows)
  {
    if !NoBareCrIn(style, rows) {
      if StartsWithBom(Table(style, rows)) {
        FirstIsMarked(style, rows);
        TableOfUnmarked(style, rows);
        assert Table(style, rows)[1..] == Table(style, Unmarked(rows));
        BareCrIsLost(style, Unmarked(rows), rows);
      } else {
        BareCrIsLost(style, rows, rows);
      }
    } else if StartsWithBom(Table(style, rows)) {
      BomIsLost(style, rows);
    } else {
      ReadPrinted(style, rows);
    }
  }

  /** `rowsToTsv` quotes every carriage return, so only the byte order mark is left. */
  lemma TsvReadBack(columns: Row, rows: seq<Row>)
    ensures ParsedCsv(RowsToTsv(columns, rows), '\t') == Filter([columns] + rows)
      <==> !StartsWithBom(RowsToTsv(columns, rows))
  {
    ReadBackExactly(TSV, [columns] + rows);
    forall k, j | 0 <= k < |[columns] + rows|
      && 0 <= j < |([columns] + rows)[k]| ensures !BareCr(TSV, ([columns] + rows)[k][j]) {
      CrIsQuoted(([columns] + rows)[k][j]);
    }
  }

  lemma CrIsQuoted(v: string)
    ensures !BareCr(TSV, v)
  {
    if '\r' in v {
      var k :| 0 <= k < |v| && v[k] == '\r';
      assert IsSpecial(TSV, v[k]);
    }
  }

  /** `toCsv` does not. */
  lemma CsvReadBack(columns: Row, rows: seq<Row>)
    ensures ParsedCsv(ToCsv(columns, rows), ',') == Filter([columns] + rows)
      <==> !StartsWithBom(ToCsv(columns, rows)) && NoBareCrIn(COMMA_SEPARATED, [columns] + rows)
  {
    ReadBackExactly(COMMA_SEPARATED, [columns] + rows);
  }
}

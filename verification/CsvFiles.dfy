/** Files as other programs write them: fields with quotes or without, and any of the three line ends. */
module CsvFiles {
  import opened Text
  import opened Statements
  import opened Csv
  import opened Joins

  /** A field without quotes around, or one in quotes with what is between its closing quote and the delimiter. */
  datatype Written = Bare(text: string) | InQuotes(text: string, rest: string)

  datatype LineEnd = Lf | Cr | CrLf

  /** Lines, the last one with a line end or without. */
  datatype File = End | LastLine(fields: seq<Written>) | Lines(fields: seq<Written>, end: LineEnd, more: File)

  function FieldText(f: Written): string {
    match f
    case Bare(text) => text
    case InQuotes(text, rest) => "\"" + Double(text, '"') + "\"" + rest
  }

  function FieldValue(f: Written): string {
    match f
    case Bare(text) => text
    case InQuotes(text, rest) => text + rest
  }

  predicate BareAt(d: char, text: string, k: nat) {
    k < |text| ==> text[k] != d && text[k] != '\n' && text[k] != '\r'
  }

  /** A text that ends neither the field nor the line and does not start with a quote. */
  predicate IsBare(d: char, text: string) {
    (text != "" ==> text[0] != '"') && forall k :: 0 <= k < |text| ==> BareAt(d, text, k)
  }

  predicate FieldOk(d: char, f: Written) {
    match f
    case Bare(text) => IsBare(d, text)
    case InQuotes(_, rest) => IsBare(d, rest)
  }

  function EndText(end: LineEnd): string {
    match end
    case Lf => "\n"
    case Cr => "\r"
    case CrLf => "\r\n"
  }

  function FieldTexts(fields: seq<Written>): seq<string> {
    seq(|fields|, k requires 0 <= k < |fields| => FieldText(fields[k]))
  }

  function Values(fields: seq<Written>): Row {
    seq(|fields|, k requires 0 <= k < |fields| => FieldValue(fields[k]))
  }

  /** The fields with delimiters between. */
  function LineText(d: char, fields: seq<Written>): string { Join(FieldTexts(fields), [d]) }

  function FileText(d: char, file: File): string {
    match file
    case End => ""
    case LastLine(fields) => LineText(d, fields)
    case Lines(fields, end, more) => LineText(d, fields) + (EndText(end) + FileText(d, more))
  }

  /** The rows of a file, blank lines included. */
  function FileRows(file: File): seq<Row> {
    match file
    case End => []
    case LastLine(fields) => [Values(fields)]
    case Lines(fields, _, more) => [Values(fields)] + FileRows(more)
  }

  predicate LineOk(d: char, fields: seq<Written>) {
    fields != [] && forall k :: 0 <= k < |fields| ==> FieldOk(d, fields[k])
  }

  /** A lone carriage return does not stand before a line feed. */
  predicate FileOk(d: char, file: File) {
    match file
    case End => true
    case LastLine(fields) => LineOk(d, fields)
    case Lines(fields, end, more) =>
      LineOk(d, fields) && FileOk(d, more) && (end.Cr? ==> FileText(d, more) == "" || FileText(d, more)[0] != '\n')
  }

  predicate DelimiterOk(d: char) { d != '"' && d != '\n' && d != '\r' }

  // ----- reading a field -----

  lemma {:induction false} ReadBare(s: string, d: char, i: nat, st: State, v: string)
    requires DelimiterOk(d) && FoundAt(v, s, i) && !st.quoted && (v != "" && st.field == "" ==> v[0] != '"')
    requires forall k :: 0 <= k < |v| ==> BareAt(d, v, k)
    ensures Rows(s, d, i, st) == Rows(s, d, i + |v|, st.(field := st.field + v))
    decreases |v|
  {
    if v == "" {
      assert st.field + v == st.field;
    } else {
      assert BareAt(d, v, 0);
      forall k | 0 <= k < |v[1..]| ensures BareAt(d, v[1..], k) { assert BareAt(d, v, k + 1); }
      assert s[i + 0] == v[0] && v == [v[0]] + v[1..];
      FoundInParts([v[0]], v[1..], s, i);
      ReadBare(s, d, i + 1, AddChar(st, v[0]), v[1..]);
      assert st.field + [v[0]] + v[1..] == st.field + v;
    }
  }

  lemma {:induction false} ReadInQuotes(s: string, d: char, i: nat, st: State, v: string, rest: string)
    requires DelimiterOk(d) && !st.quoted && st.field == "" && IsBare(d, rest)
    requires FoundAt("\"" + Double(v, '"') + "\"" + rest, s, i)
    requires var e := i + |Double(v, '"')| + 2 + |rest|; e < |s| ==> s[e] != '"'
    ensures Rows(s, d, i, st) == Rows(s, d, i + |Double(v, '"')| + 2 + |rest|, st.(field := v + rest))
  {
    var quoted := "\"" + Double(v, '"') + "\"";
    FoundInParts(quoted, rest, s, i);
    if rest != "" { assert s[i + |quoted| + 0] == rest[0]; }
    ReadQuoted(s, d, i, st, v);
    ReadBare(s, d, i + |quoted|, st.(field := v), rest);
  }

  /** What comes behind a field. */
  predicate EndsField(s: string, d: char, e: nat) { e < |s| ==> s[e] == d || s[e] == '\n' || s[e] == '\r' }

  lemma {:induction false} ReadWritten(s: string, d: char, i: nat, st: State, f: Written)
    requires DelimiterOk(d) && !st.quoted && st.field == "" && FieldOk(d, f) && FoundAt(FieldText(f), s, i)
    requires EndsField(s, d, i + |FieldText(f)|)
    ensures Rows(s, d, i, st) == Rows(s, d, i + |FieldText(f)|, st.(field := FieldValue(f)))
  {
    match f
    case Bare(text) =>
      ReadBare(s, d, i, st, text);
      assert "" + text == text;
    case InQuotes(text, rest) => ReadInQuotes(s, d, i, st, text, rest);
  }

  // ----- reading a line -----

  predicate IsText(fields: seq<Written>, texts: seq<string>, k: nat) {
    k < |fields| && k < |texts| ==> texts[k] == FieldText(fields[k])
  }

  predicate AreTexts(fields: seq<Written>, texts: seq<string>) {
    |texts| == |fields| && forall k :: 0 <= k < |fields| ==> IsText(fields, texts, k)
  }

  lemma {:induction false} ReadPart(s: string, d: char, i: nat, st: State, fields: seq<Written>, texts: seq<string>,
      k: nat)
    requires DelimiterOk(d) && LineOk(d, fields) && AreTexts(fields, texts) && k < |fields|
    requires !st.quoted && st.field == "" && FoundAt(texts[k], s, i) && EndsField(s, d, i + |texts[k]|)
    ensures Rows(s, d, i, st) == Rows(s, d, i + |texts[k]|, st.(field := FieldValue(fields[k])))
  {
    assert IsText(fields, texts, k) && FieldOk(d, fields[k]);
    ReadWritten(s, d, i, st, fields[k]);
  }

  /** A field and the delimiter behind it. */
  lemma {:induction false} ReadWithDelimiter(s: string, d: char, i: nat, rows: seq<Row>, before: Row,
      fields: seq<Written>, texts: seq<string>, k: nat)
    requires DelimiterOk(d) && LineOk(d, fields) && AreTexts(fields, texts) && k < |fields|
    requires FoundAt(texts[k], s, i) && i + |texts[k]| < |s| && s[i + |texts[k]|] == d
    ensures Rows(s, d, i, InRow(rows, before)) ==
      Rows(s, d, i + |texts[k]| + 1, InRow(rows, before + [FieldValue(fields[k])]))
  {
    ReadPart(s, d, i, InRow(rows, before), fields, texts, k);
  }

  lemma DelimiterAt(s: string, d: char, m: nat)
    ensures MatchAt(s, [d], m) <==> m < |s| && s[m] == d
  {
    MatchOne(s, [d], m);
  }

  lemma OneValueMore(before: Row, value: string, more: Row)
    ensures (before + [value]) + more == before + ([value] + more)
  {}

  /** The fields from `k` on, read up to the end of the line: those before the last, and the last. */
  lemma {:induction false} ReadFields(s: string, d: char, i: nat, rows: seq<Row>, before: Row, fields: seq<Written>,
      texts: seq<string>, k: nat, e: nat)
    returns (row: Row, last: string)
    requires DelimiterOk(d) && LineOk(d, fields) && AreTexts(fields, texts) && PartsLie(s, i, texts, k, [d], e)
    requires EndsField(s, d, e)
    ensures row + [last] == before + From(Values(fields), k)
    ensures Rows(s, d, i, InRow(rows, before)) == Rows(s, d, e, State(rows, row, last, false))
    decreases |fields| - k
  {
    var m, value := i + |texts[k]|, FieldValue(fields[k]);
    DelimiterAt(s, d, m);
    if k + 1 == |fields| {
      ReadPart(s, d, i, InRow(rows, before), fields, texts, k);
      FromLast(Values(fields), k);
      row, last := before, value;
    } else {
      ReadWithDelimiter(s, d, i, rows, before, fields, texts, k);
      row, last := ReadFields(s, d, m + 1, rows, before + [value], fields, texts, k + 1, e);
      OneValueMore(before, value, From(Values(fields), k + 1));
    }
  }

  /** A whole line, up to its end. */
  ghost predicate LineLies(s: string, d: char, i: nat, fields: seq<Written>, e: nat) {
    LineOk(d, fields) && PartsLie(s, i, FieldTexts(fields), 0, [d], e) && EndsField(s, d, e)
  }

  lemma {:induction false} LineIsFound(s: string, d: char, i: nat, fields: seq<Written>, line: string)
    requires DelimiterOk(d) && LineOk(d, fields) && line == LineText(d, fields) && FoundAt(line, s, i)
    requires var e := i + |line|; e < |s| ==> s[e] == '\n' || s[e] == '\r'
    ensures LineLies(s, d, i, fields, i + |line|)
  {
    var texts := FieldTexts(fields);
    assert texts[0..] == texts;
    DelimiterAt(s, d, i + |line|);
    JoinLies(s, i, texts, 0, [d], line);
  }

  /** All fields of a line. */
  lemma {:induction false} ReadAllFields(s: string, d: char, i: nat, rows: seq<Row>, fields: seq<Written>, e: nat)
      returns (row: Row, last: string)
    requires DelimiterOk(d) && LineLies(s, d, i, fields, e)
    ensures row + [last] == Values(fields)
    ensures Rows(s, d, i, InRow(rows, [])) == Rows(s, d, e, State(rows, row, last, false))
  {
    var texts := FieldTexts(fields);
    forall k | 0 <= k < |fields| ensures IsText(fields, texts, k) {}
    row, last := ReadFields(s, d, i, rows, [], fields, texts, 0, e);
    AllOf(Values(fields));
    assert [] + Values(fields) == Values(fields);
  }

  // ----- reading a file -----

  /** A line end lies in the text from `e` to `next`. */
  ghost predicate EndLies(s: string, e: nat, end: LineEnd, next: nat) {
    match end
    case Lf => At(s, e, '\n') && next == e + 1
    case Cr => At(s, e, '\r') && !At(s, e + 1, '\n') && next == e + 1
    case CrLf => At(s, e, '\r') && At(s, e + 1, '\n') && next == e + 2
  }

  /** The lines lie in the text from `i` on. */
  ghost predicate FileLies(s: string, d: char, i: nat, file: File)
    decreases file
  {
    match file
    case End => i == |s|
    case LastLine(fields) => LineLies(s, d, i, fields, |s|)
    case Lines(fields, end, more) => exists e: nat, next: nat ::
      LineLies(s, d, i, fields, e) && EndLies(s, e, end, next) && FileLies(s, d, next, more)
  }

  lemma LineAndTail(s: string, i: nat, line: string, end: LineEnd, tail: string, text: string)
    requires text == line + (EndText(end) + tail) && FoundAt(text, s, i) && |s| == i + |text|
    requires end.Cr? && tail != "" ==> tail[0] != '\n'
    ensures var e := i + |line|; var next := e + |EndText(end)|;
      FoundAt(line, s, i) && EndLies(s, e, end, next) && FoundAt(tail, s, next) && |s| == next + |tail|
  {
    var mark, e := EndText(end), i + |line|;
    FoundInParts(line, mark + tail, s, i);
    FoundInParts(mark, tail, s, e);
    assert s[e + 0] == mark[0];
    if end.CrLf? { assert s[e + 1] == mark[1]; }
    if end.Cr? && tail != "" { assert s[e + 1 + 0] == tail[0]; }
  }

  lemma {:induction false} TextLies(s: string, d: char, i: nat, file: File, text: string)
    requires DelimiterOk(d) && FileOk(d, file) && text == FileText(d, file) && FoundAt(text, s, i) && |s| == i + |text|
    ensures FileLies(s, d, i, file)
    decreases file
  {
    if file.LastLine? {
      LineIsFound(s, d, i, file.fields, text);
    } else if file.Lines? {
      var line, tail := LineText(d, file.fields), FileText(d, file.more);
      var e, next := i + |line|, i + |line| + |EndText(file.end)|;
      LineAndTail(s, i, line, file.end, tail, text);
      LineIsFound(s, d, i, file.fields, line);
      TextLies(s, d, next, file.more, tail);
      assert LineLies(s, d, i, file.fields, e) && EndLies(s, e, file.end, next) && FileLies(s, d, next, file.more);
    }
  }

  lemma EndIsRead(s: string, d: char, e: nat, rows: seq<Row>, row: Row, last: string, values: Row, end: LineEnd,
      next: nat)
    requires DelimiterOk(d) && EndLies(s, e, end, next) && row + [last] == values
    ensures Rows(s, d, e, State(rows, row, last, false)) == Rows(s, d, next, InRow(rows + [values], []))
  {}

  /** A line and its end. */
  lemma {:induction false} ReadWholeLine(s: string, d: char, i: nat, rows: seq<Row>, fields: seq<Written>,
      end: LineEnd, e: nat, next: nat)
    requires DelimiterOk(d) && LineLies(s, d, i, fields, e) && EndLies(s, e, end, next)
    ensures Rows(s, d, i, InRow(rows, [])) == Rows(s, d, next, InRow(rows + [Values(fields)], []))
  {
    var row, last := ReadAllFields(s, d, i, rows, fields, e);
    EndIsRead(s, d, e, rows, row, last, Values(fields), end, next);
  }

  lemma LastRowIsRead(s: string, d: char, rows: seq<Row>, row: Row, last: string)
    ensures Filter(Rows(s, d, |s|, State(rows, row, last, false))) == Filter(rows) + Filter([row + [last]])
  {
    if last != "" || row != [] {
      FilterBoth(rows, [row + [last]]);
    } else {
      assert row + [last] == [""];
      assert [[""]][1..] == [];
      assert Filter([[""]]) == [] + Filter([]) == [];
    }
  }

  lemma OneRowMore(rows: seq<Row>, row: Row, more: seq<Row>)
    ensures Filter(rows + [row]) + Filter(more) == Filter(rows) + Filter([row] + more)
  {
    FilterBoth(rows, [row]);
    FilterBoth([row], more);
  }

  /** The rows before and all rows from `i` on. */
  ghost predicate ReadsTo(s: string, d: char, i: nat, rows: seq<Row>, all: seq<Row>) {
    Filter(Rows(s, d, i, InRow(rows, []))) == Filter(rows) + Filter(all)
  }

  lemma {:induction false} LineInFront(s: string, d: char, i: nat, rows: seq<Row>, fields: seq<Written>, end: LineEnd,
      e: nat, next: nat, more: seq<Row>)
    requires DelimiterOk(d) && LineLies(s, d, i, fields, e) && EndLies(s, e, end, next)
    requires ReadsTo(s, d, next, rows + [Values(fields)], more)
    ensures ReadsTo(s, d, i, rows, [Values(fields)] + more)
  {
    ReadWholeLine(s, d, i, rows, fields, end, e, next);
    OneRowMore(rows, Values(fields), more);
  }

  lemma {:induction false} FileEndIsRead(s: string, d: char, i: nat, rows: seq<Row>, fields: seq<Written>)
    requires DelimiterOk(d) && LineLies(s, d, i, fields, |s|)
    ensures ReadsTo(s, d, i, rows, [Values(fields)])
  {
    var row, last := ReadAllFields(s, d, i, rows, fields, |s|);
    LastRowIsRead(s, d, rows, row, last);
  }

  /** The lines of a file from `i` on, behind `rows`. */
  lemma {:induction false} ReadFile(s: string, d: char, i: nat, rows: seq<Row>, file: File)
    requires DelimiterOk(d) && FileLies(s, d, i, file)
    ensures ReadsTo(s, d, i, rows, FileRows(file))
    decreases file
  {
    match file
    case End => assert Filter([]) == [];
    case LastLine(fields) => FileEndIsRead(s, d, i, rows, fields);
    case Lines(fields, end, more) =>
      var e: nat, next: nat :| LineLies(s, d, i, fields, e) && EndLies(s, e, end, next)
        && FileLies(s, d, next, more);
      ReadFile(s, d, next, rows + [Values(fields)], more);
      LineInFront(s, d, i, rows, fields, end, e, next, FileRows(more));
  }

  lemma WithMark(text: string, mark: bool)
    requires var all := (if mark then [BOM] else "") + text; !mark ==> all == "" || all[0] != BOM
    ensures WithoutBom((if mark then [BOM] else "") + text) == text
  {
    var all := (if mark then [BOM] else "") + text;
    if mark { assert all[0] == BOM && all[1..] == text; } else { assert all == text; }
  }

  lemma {:induction false} RowsOfFile(d: char, file: File, text: string)
    requires DelimiterOk(d) && FileOk(d, file) && text == FileText(d, file)
    ensures Filter(Rows(text, d, 0, START)) == Filter(FileRows(file))
  {
    FoundWhole(text);
    TextLies(text, d, 0, file, text);
    ReadFile(text, d, 0, [], file);
    NoRowsBefore(Filter(FileRows(file)));
  }

  lemma NoRowsBefore(rows: seq<Row>)
    ensures Filter([]) + rows == rows
  {}

  /**
   * Whatever the fields are, with quotes or without, whichever line ends there are, and with a byte order mark or
   * without: the rows of the file are read, blank lines left out.
   */
  lemma {:induction false} FileIsRead(d: char, file: File, mark: bool, text: string)
    requires DelimiterOk(d) && FileOk(d, file) && text == (if mark then [BOM] else "") + FileText(d, file)
    requires !mark ==> text == "" || text[0] != BOM
    ensures ParsedCsv(text, d) == Filter(FileRows(file))
  {
    WithMark(FileText(d, file), mark);
    RowsOfFile(d, file, FileText(d, file));
  }
}

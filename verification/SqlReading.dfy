/**
 * Reading an UPDATE or an INSERT of the shape the printers use, as a server does: names with their quotes undoubled,
 * literals with their escapes undone.
 */
module SqlReader {
  import opened Text
  import opened CopyRows

  /** What was read and where to go on. */
  datatype Parsed<+T> = Failed | Parsed(value: T, next: nat)

  datatype Update = Update(schema: string, table: string, updates: Record, key: Record)

  datatype Insert = Insert(schema: string, table: string, columns: seq<string>, rows: seq<seq<Value>>)

  function NameQuote(d: Dialect): char {
    match d
    case Mysql => '`'
    case _ => '"'
  }

  /** What a backslash and `c` stand for in a MySQL string (MySQL 8.4 manual, table 11.1). */
  function Unescaped(c: char): string {
    if c == '0' then "\0" else if c == 'b' then "\U{08}" else if c == 'n' then "\n" else if c == 'r' then "\r"
    else if c == 't' then "\t" else if c == 'Z' then "\U{1A}" else if c == '%' || c == '_' then ['\\', c]
    else [c]
  }

  function Before(text: string, rest: Parsed<string>): Parsed<string> {
    if rest.Parsed? then Parsed(text + rest.value, rest.next) else Failed
  }

  /** The rest of a quoted text, past its closing quote. */
  function ReadQuoted(sql: string, i: nat, quote: char, escapes: bool): (r: Parsed<string>)
    ensures r.Parsed? ==> i < r.next <= |sql|
    decreases |sql| - i
  {
    if i >= |sql| then Failed
    else if escapes && sql[i] == '\\' then
      if i + 1 == |sql| then Failed else Before(Unescaped(sql[i + 1]), ReadQuoted(sql, i + 2, quote, escapes))
    else if sql[i] != quote then Before([sql[i]], ReadQuoted(sql, i + 1, quote, escapes))
    else if i + 1 < |sql| && sql[i + 1] == quote then Before([quote], ReadQuoted(sql, i + 2, quote, escapes))
    else Parsed("", i + 1)
  }

  function ReadName(d: Dialect, sql: string, i: nat): (r: Parsed<string>)
    ensures r.Parsed? ==> i < r.next <= |sql|
  {
    if i < |sql| && sql[i] == NameQuote(d) then ReadQuoted(sql, i + 1, NameQuote(d), false) else Failed
  }

  predicate RunChar(c: char) { IsLetter(c) || IsDigit(c) || c == '.' || c == '+' || c == '-' }

  function RunEnd(sql: string, i: nat): (e: nat)
    requires i <= |sql|
    ensures i <= e <= |sql|
    decreases |sql| - i
  {
    if i < |sql| && RunChar(sql[i]) then RunEnd(sql, i + 1) else i
  }

  function WordValue(word: string): Value {
    if word == "NULL" then Null else if word == "TRUE" then Bool(true) else if word == "FALSE" then Bool(false)
    else Number(word)
  }

  /** A string, a keyword or a number. */
  function ReadValue(d: Dialect, sql: string, i: nat): (r: Parsed<Value>)
    ensures r.Parsed? ==> i < r.next <= |sql|
  {
    if i >= |sql| then Failed
    else if sql[i] == '\'' then
      var text := ReadQuoted(sql, i + 1, '\'', d == Mysql);
      if text.Parsed? then Parsed(Text(text.value), text.next) else Failed
    else
      var e := RunEnd(sql, i);
      if i < e then Parsed(WordValue(sql[i..e]), e) else Failed
  }

  function Past(sql: string, i: nat, text: string): Parsed<()> {
    if MatchAt(sql, text, i) then Parsed((), i + |text|) else Failed
  }

  /** A name, ` = ` and a value. */
  function ReadPair(d: Dialect, sql: string, i: nat): (r: Parsed<(string, Value)>)
    ensures r.Parsed? ==> i < r.next <= |sql|
  {
    var name := ReadName(d, sql, i);
    if name.Failed? then Failed
    else
      var equals := Past(sql, name.next, " = ");
      if equals.Failed? then Failed
      else
        var value := ReadValue(d, sql, equals.next);
        if value.Failed? then Failed else Parsed((name.value, value.value), value.next)
  }

  /** What reads one part of a list gets further, but not past the end. */
  ghost predicate Moves<T(!new)>(read: nat -> Parsed<T>, sql: string) {
    forall i: nat :: read(i).Parsed? ==> i < read(i).next <= |sql|
  }

  /** Parts with separators between. */
  function ReadList<T(!new)>(read: nat -> Parsed<T>, sql: string, i: nat, sep: string): (r: Parsed<seq<T>>)
    requires Moves(read, sql)
    ensures r.Parsed? ==> i < r.next <= |sql|
    decreases |sql| - i
  {
    var first := read(i);
    if first.Failed? then Failed
    else if !MatchAt(sql, sep, first.next) then Parsed([first.value], first.next)
    else
      var rest := ReadList(read, sql, first.next + |sep|, sep);
      if rest.Failed? then Failed else Parsed([first.value] + rest.value, rest.next)
  }

  function PairReader(d: Dialect, sql: string): (read: nat -> Parsed<(string, Value)>)
    ensures Moves(read, sql)
  {
    (i: nat) => ReadPair(d, sql, i)
  }

  function NameReader(d: Dialect, sql: string): (read: nat -> Parsed<string>)
    ensures Moves(read, sql)
  {
    (i: nat) => ReadName(d, sql, i)
  }

  function ValueReader(d: Dialect, sql: string): (read: nat -> Parsed<Value>)
    ensures Moves(read, sql)
  {
    (i: nat) => ReadValue(d, sql, i)
  }

  function RowReader(d: Dialect, sql: string): (read: nat -> Parsed<seq<Value>>)
    ensures Moves(read, sql)
  {
    (i: nat) => ReadRow(d, sql, i)
  }

  /** Names with their values, none if no name starts at `i`. */
  function ReadPairs(d: Dialect, sql: string, i: nat, sep: string): (r: Parsed<Record>)
    requires i <= |sql|
    ensures r.Parsed? ==> i <= r.next <= |sql|
  {
    if i == |sql| || sql[i] != NameQuote(d) then Parsed([], i) else ReadList(PairReader(d, sql), sql, i, sep)
  }

  /** `schema.table` */
  function ReadTable(d: Dialect, sql: string, i: nat): (r: Parsed<(string, string)>)
    ensures r.Parsed? ==> i < r.next <= |sql|
  {
    var schema := ReadName(d, sql, i);
    if schema.Failed? || !MatchAt(sql, ".", schema.next) then Failed
    else
      var table := ReadName(d, sql, schema.next + 1);
      if table.Failed? then Failed else Parsed((schema.value, table.value), table.next)
  }

  /** What the statement is and the table it is about. */
  function ReadTarget(d: Dialect, sql: string, verb: string): Parsed<(string, string)> {
    if MatchAt(sql, verb, 0) then ReadTable(d, sql, |verb|) else Failed
  }

  /** `SET` and the new values. */
  function ReadSet(d: Dialect, sql: string, i: nat): (r: Parsed<Record>)
    ensures r.Parsed? ==> i < r.next <= |sql|
  {
    if MatchAt(sql, "\nSET ", i) then ReadPairs(d, sql, i + 5, ",\n    ") else Failed
  }

  /** `WHERE` and the key, up to the end; no key when nothing but a blank comes behind. */
  function ReadWhere(d: Dialect, sql: string, i: nat): Option<Record> {
    if !MatchAt(sql, "\nWHERE", i) then None
    else if i + 6 == |sql| then Some([])
    else if sql[i + 6] != ' ' then None
    else
      var key := ReadPairs(d, sql, i + 7, " AND ");
      if key.Parsed? && key.next == |sql| then Some(key.value) else None
  }

  /** `UPDATE schema.table SET … WHERE …` */
  function ReadUpdate(d: Dialect, sql: string): Option<Update> {
    var target := ReadTarget(d, sql, "UPDATE ");
    if target.Failed? then None
    else
      var updates := ReadSet(d, sql, target.next);
      if updates.Failed? then None
      else
        var key := ReadWhere(d, sql, updates.next);
        if key.None? then None else Some(Update(target.value.0, target.value.1, updates.value, key.value))
  }

  /** Names, none if no name starts at `i`. */
  function ReadNames(d: Dialect, sql: string, i: nat): (r: Parsed<seq<string>>)
    requires i <= |sql|
    ensures r.Parsed? ==> i <= r.next <= |sql|
  {
    if i == |sql| || sql[i] != NameQuote(d) then Parsed([], i) else ReadList(NameReader(d, sql), sql, i, ", ")
  }

  /** Values, none before a `)`. */
  function ReadValues(d: Dialect, sql: string, i: nat): (r: Parsed<seq<Value>>)
    requires i <= |sql|
    ensures r.Parsed? ==> i <= r.next <= |sql|
  {
    if i < |sql| && sql[i] == ')' then Parsed([], i) else ReadList(ValueReader(d, sql), sql, i, ", ")
  }

  /** A row in parentheses, on a line of its own. */
  function ReadRow(d: Dialect, sql: string, i: nat): (r: Parsed<seq<Value>>)
    ensures r.Parsed? ==> i < r.next <= |sql|
  {
    if !MatchAt(sql, "  (", i) then Failed
    else
      var values := ReadValues(d, sql, i + 3);
      if values.Failed? || !MatchAt(sql, ")", values.next) then Failed else Parsed(values.value, values.next + 1)
  }

  function ReadRows(d: Dialect, sql: string, i: nat): (r: Parsed<seq<seq<Value>>>)
    requires i <= |sql|
    ensures r.Parsed? ==> i <= r.next <= |sql|
  {
    if i == |sql| then Parsed([], i) else ReadList(RowReader(d, sql), sql, i, ",\n")
  }

  /** The columns in parentheses. */
  function ReadColumns(d: Dialect, sql: string, i: nat): (r: Parsed<seq<string>>)
    ensures r.Parsed? ==> i < r.next <= |sql|
  {
    if MatchAt(sql, " (", i) then ReadNames(d, sql, i + 2) else Failed
  }

  /** `VALUES` and the rows, up to the end. */
  function ReadRowsToEnd(d: Dialect, sql: string, i: nat): Option<seq<seq<Value>>> {
    if !MatchAt(sql, ") VALUES", i) then None
    else if i + 8 == |sql| then Some([])
    else if sql[i + 8] != '\n' then None
    else
      var rows := ReadRows(d, sql, i + 9);
      if rows.Parsed? && rows.next == |sql| then Some(rows.value) else None
  }

  /** `INSERT INTO schema.table (…) VALUES …` */
  function ReadInsert(d: Dialect, sql: string): Option<Insert> {
    var target := ReadTarget(d, sql, "INSERT INTO ");
    if target.Failed? then None
    else
      var columns := ReadColumns(d, sql, target.next);
      if columns.Failed? then None
      else
        var rows := ReadRowsToEnd(d, sql, columns.next);
        if rows.None? then None else Some(Insert(target.value.0, target.value.1, columns.value, rows.value))
  }
}

/** Reading what was printed gives back what it was printed from. */
module SqlRoundTrips {
  import opened Text
  import opened Statements
  import opened CopyRows
  import opened Pens
  import opened Joins
  import opened SqlReader

  /** A value as JavaScript has them: a number is printed with at least one character. */
  predicate Printed(v: Value) { v.Number? ==> v.text != "" && IsNumber(v.text) }

  predicate PrintedAt(row: seq<Value>, k: nat) { k < |row| ==> Printed(row[k]) }

  predicate AllPrinted(row: seq<Value>) { forall k :: 0 <= k < |row| ==> PrintedAt(row, k) }

  predicate PairPrintedAt(r: Record, k: nat) { k < |r| ==> Printed(r[k].1) }

  predicate RecordPrinted(r: Record) { forall k :: 0 <= k < |r| ==> PairPrintedAt(r, k) }

  /** The closing quote is not doubled by what comes after it. */
  predicate NoQuoteAt(sql: string, i: nat, q: char) { i < |sql| ==> sql[i] != q }

  // ----- names and values -----

  lemma {:induction false} DoubledIsRead(sql: string, i: nat, s: string, q: char)
    requires FoundAt(Double(s, q), sql, i) && i + |Double(s, q)| < |sql| && sql[i + |Double(s, q)|] == q
    requires NoQuoteAt(sql, i + |Double(s, q)| + 1, q)
    ensures ReadQuoted(sql, i, q, false) == Parsed(s, i + |Double(s, q)| + 1)
    decreases |s|
  {
    if s != "" {
      var one := if s[0] == q then [q, q] else [s[0]];
      FoundInParts(one, Double(s[1..], q), sql, i);
      DoubledIsRead(sql, i + |one|, s[1..], q);
      assert sql[i + 0] == one[0] && (s[0] == q ==> sql[i + 1] == one[1]);
      assert [s[0]] + s[1..] == s;
    }
  }

  lemma {:induction false} EscapedCharIsRead(sql: string, i: nat, c: char, rest: string, e: nat)
    requires FoundAt(EscapedChar(c), sql, i) && ReadQuoted(sql, i + |EscapedChar(c)|, '\'', true) == Parsed(rest, e)
    ensures ReadQuoted(sql, i, '\'', true) == Parsed([c] + rest, e)
  {
    var one := EscapedChar(c);
    assert sql[i + 0] == one[0] && (|one| == 2 ==> sql[i + 1] == one[1]);
  }

  lemma FirstAndRest(s: string)
    requires s != ""
    ensures [s[0]] + s[1..] == s
  {}

  lemma {:induction false} EscapedIsRead(sql: string, i: nat, s: string, escaped: string)
    requires escaped == Double(Double(s, '\\'), '\'') && FoundAt(escaped, sql, i)
    requires i + |escaped| < |sql| && sql[i + |escaped|] == '\'' && NoQuoteAt(sql, i + |escaped| + 1, '\'')
    ensures ReadQuoted(sql, i, '\'', true) == Parsed(s, i + |escaped| + 1)
    decreases |s|
  {
    if s == "" {
      assert Double("", '\\') == "" && Double("", '\'') == "";
    } else {
      var one, rest := EscapedChar(s[0]), Double(Double(s[1..], '\\'), '\'');
      FirstAndRest(s);
      EscapeOne(s[0], s[1..]);
      FoundInParts(one, rest, sql, i);
      EscapedIsRead(sql, i + |one|, s[1..], rest);
      EscapedCharIsRead(sql, i, s[0], s[1..], i + |escaped| + 1);
    }
  }

  lemma QuotedParts(q: char, inner: string, sql: string, i: nat)
    requires FoundAt([q] + inner + [q], sql, i)
    ensures i + |inner| + 2 <= |sql| && sql[i] == q && FoundAt(inner, sql, i + 1) && sql[i + 1 + |inner|] == q
  {
    FoundInParts([q] + inner, [q], sql, i);
    FoundInParts([q], inner, sql, i);
    assert sql[i + 0] == [q][0] && sql[i + |[q] + inner| + 0] == [q][0];
  }

  /** A name is read back, whatever is in it. */
  lemma {:induction false} NameIsRead(d: Dialect, sql: string, i: nat, name: string)
    requires FoundAt(QuoteIdent(d, name), sql, i) && NoQuoteAt(sql, i + |QuoteIdent(d, name)|, NameQuote(d))
    ensures ReadName(d, sql, i) == Parsed(name, i + |QuoteIdent(d, name)|)
  {
    var q := NameQuote(d);
    QuotedParts(q, Double(name, q), sql, i);
    DoubledIsRead(sql, i + 1, name, q);
  }

  /** What may come after a value: the end, or a character that ends it. */
  predicate StopsAt(sql: string, i: nat) {
    i < |sql| ==> sql[i] == ',' || sql[i] == ')' || sql[i] == ' ' || sql[i] == '\n'
  }

  lemma {:induction false} RunEndIs(sql: string, i: nat, e: nat)
    requires i <= e <= |sql| && StopsAt(sql, e) && forall k :: i <= k < e ==> RunChar(sql[k])
    ensures RunEnd(sql, i) == e
    decreases e - i
  {
    if i < e { RunEndIs(sql, i + 1, e); }
  }

  lemma {:induction false} WordIsRead(d: Dialect, sql: string, i: nat, word: string)
    requires FoundAt(word, sql, i) && StopsAt(sql, i + |word|)
    requires word != "" && forall k :: 0 <= k < |word| ==> RunChar(word[k])
    ensures ReadValue(d, sql, i) == Parsed(WordValue(word), i + |word|)
  {
    var e := i + |word|;
    forall k | i <= k < e ensures sql[k] == word[k - i] { assert sql[i + (k - i)] == word[k - i]; }
    RunEndIs(sql, i, e);
    assert sql[i..e] == word;
  }

  lemma NumberCharRuns(c: char)
    requires NumberChar(c)
    ensures RunChar(c) && c != 'U' && c != 'R' && c != 'L'
  {}

  lemma NumbersAreRuns(text: string)
    requires IsNumber(text) && text != ""
    ensures (forall k :: 0 <= k < |text| ==> RunChar(text[k])) && WordValue(text) == Number(text)
  {
    forall k | 0 <= k < |text| ensures RunChar(text[k]) && text[k] != 'U' && text[k] != 'R' && text[k] != 'L' {
      NumberCharRuns(text[k]);
    }
    assert "NULL"[1] == 'U' && "TRUE"[1] == 'R' && "FALSE"[2] == 'L';
  }

  /** A value is read back, whatever is in it. */
  lemma {:induction false} ValueIsRead(d: Dialect, sql: string, i: nat, v: Value)
    requires Printed(v) && FoundAt(Literal(d, v), sql, i) && StopsAt(sql, i + |Literal(d, v)|)
    ensures ReadValue(d, sql, i) == Parsed(v, i + |Literal(d, v)|)
  {
    match v
    case Null => WordIsRead(d, sql, i, "NULL");
    case Bool(b) => WordIsRead(d, sql, i, if b then "TRUE" else "FALSE");
    case Number(text) =>
      NumbersAreRuns(text);
      WordIsRead(d, sql, i, text);
    case Text(text) => TextIsRead(d, sql, i, text);
  }

  lemma {:induction false} TextIsRead(d: Dialect, sql: string, i: nat, text: string)
    requires FoundAt("'" + Escape(d, text) + "'", sql, i) && StopsAt(sql, i + |Escape(d, text)| + 2)
    ensures ReadValue(d, sql, i) == Parsed(Text(text), i + |Escape(d, text)| + 2)
  {
    QuotedParts('\'', Escape(d, text), sql, i);
    if d.Mysql? {
      EscapedIsRead(sql, i + 1, text, Escape(d, text));
    } else {
      DoubledIsRead(sql, i + 1, text, '\'');
    }
  }

  // ----- lists -----

  function PairText(d: Dialect, name: string, v: Value): string { QuoteIdent(d, name) + " = " + Literal(d, v) }

  lemma {:induction false} PairIsRead(d: Dialect, sql: string, i: nat, name: string, v: Value)
    requires FoundAt(PairText(d, name, v), sql, i) && Printed(v) && StopsAt(sql, i + |PairText(d, name, v)|)
    ensures ReadPair(d, sql, i) == Parsed((name, v), i + |PairText(d, name, v)|) && sql[i] == NameQuote(d)
  {
    var ident, value := QuoteIdent(d, name), Literal(d, v);
    FoundInParts(ident + " = ", value, sql, i);
    FoundInParts(ident, " = ", sql, i);
    assert sql[i + |ident| + 0] == " = "[0] && sql[i + 0] == ident[0];
    NameIsRead(d, sql, i, name);
    MatchIsFound(sql, " = ", i + |ident|);
    ValueIsRead(d, sql, i + |ident| + 3, v);
  }

  /** What may stand between the parts of a list. */
  predicate IsSeparator(sep: string) { sep != "" && (sep[0] == ',' || sep[0] == ' ') }

  lemma SeparatorStops(sql: string, m: nat, sep: string)
    requires IsSeparator(sep) && MatchAt(sql, sep, m)
    ensures StopsAt(sql, m)
  {
    assert sql[m + 0] == sep[0];
  }

  /** The part `k`, and where the next one starts. */
  lemma {:induction false} PartLies(sql: string, i: nat, parts: seq<string>, k: nat, sep: string, e: nat)
      returns (m: nat)
    requires PartsLie(sql, i, parts, k, sep, e) && IsSeparator(sep) && StopsAt(sql, e)
    ensures k < |parts| && FoundAt(parts[k], sql, i) && m == i + |parts[k]| && StopsAt(sql, m)
    ensures if k + 1 == |parts| then !MatchAt(sql, sep, m) && m == e
      else MatchAt(sql, sep, m) && PartsLie(sql, m + |sep|, parts, k + 1, sep, e)
  {
    m := i + |parts[k]|;
    if k + 1 < |parts| { SeparatorStops(sql, m, sep); }
  }

  /** Wherever the printed part `k` is found, with something behind it that ends it, the item `k` is read. */
  ghost predicate ReadsPart<T(!new)>(read: nat -> Parsed<T>, sql: string, items: seq<T>, parts: seq<string>, k: nat) {
    k < |items| && k < |parts| && forall i: nat :: FoundAt(parts[k], sql, i) && StopsAt(sql, i + |parts[k]|) ==>
      read(i) == Parsed(items[k], i + |parts[k]|)
  }

  ghost predicate ReadsParts<T(!new)>(read: nat -> Parsed<T>, sql: string, items: seq<T>, parts: seq<string>) {
    |parts| == |items| && forall k: nat :: k < |items| ==> ReadsPart(read, sql, items, parts, k)
  }

  /** The items from `k` on. */
  lemma {:induction false} ListLiesRead<T(!new)>(read: nat -> Parsed<T>, sql: string, i: nat, items: seq<T>,
      parts: seq<string>, k: nat, sep: string, e: nat)
    requires Moves(read, sql) && ReadsParts(read, sql, items, parts) && PartsLie(sql, i, parts, k, sep, e)
    requires IsSeparator(sep) && StopsAt(sql, e)
    ensures ReadList(read, sql, i, sep) == Parsed(From(items, k), e)
    decreases |parts| - k
  {
    var m := PartLies(sql, i, parts, k, sep, e);
    assert ReadsPart(read, sql, items, parts, k) && read(i) == Parsed(items[k], m);
    if k + 1 < |parts| {
      ListLiesRead(read, sql, m + |sep|, items, parts, k + 1, sep, e);
    } else {
      FromLast(items, k);
    }
  }

  /** A printed list is read back. */
  lemma {:induction false} ListIsRead<T(!new)>(read: nat -> Parsed<T>, sql: string, i: nat, items: seq<T>,
      parts: seq<string>, sep: string, text: string)
    requires Moves(read, sql) && ReadsParts(read, sql, items, parts) && items != []
    requires text == Join(parts, sep) && FoundAt(text, sql, i) && IsSeparator(sep)
    requires StopsAt(sql, i + |text|) && !MatchAt(sql, sep, i + |text|)
    ensures ReadList(read, sql, i, sep) == Parsed(items, i + |text|)
  {
    assert parts[0..] == parts;
    AllOf(items);
    JoinLies(sql, i, parts, 0, sep, text);
    ListLiesRead(read, sql, i, items, parts, 0, sep, i + |text|);
  }

  // ----- the four lists -----

  lemma {:induction false} AssignmentAt(d: Dialect, r: Record, k: nat)
    requires k < |r|
    ensures |Assignments(d, r)| == |r| && Assignments(d, r)[k] == PairText(d, r[k].0, r[k].1)
    decreases |r|
  {
    if |r| > 1 { AssignmentAt(d, r[1..], if k == 0 then 0 else k - 1); }
  }

  lemma {:induction false} PairPartIsRead(d: Dialect, sql: string, r: Record, parts: seq<string>, k: nat)
    requires k < |r| && k < |parts| && parts[k] == PairText(d, r[k].0, r[k].1) && Printed(r[k].1)
    ensures ReadsPart(PairReader(d, sql), sql, r, parts, k)
  {
    forall i: nat | FoundAt(parts[k], sql, i) && StopsAt(sql, i + |parts[k]|)
      ensures PairReader(d, sql)(i) == Parsed(r[k], i + |parts[k]|)
    {
      PairIsRead(d, sql, i, r[k].0, r[k].1);
    }
  }

  lemma {:induction false} PairsAreRead(d: Dialect, sql: string, i: nat, r: Record, sep: string, text: string)
    requires RecordPrinted(r) && text == Join(Assignments(d, r), sep) && FoundAt(text, sql, i) && IsSeparator(sep)
    requires StopsAt(sql, i + |text|) && !MatchAt(sql, sep, i + |text|)
    ensures ReadPairs(d, sql, i, sep) == Parsed(r, i + |text|)
  {
    if r == [] {
      assert text == "";
      StopIsNoQuote(d, sql, i);
    } else {
      var parts := Assignments(d, r);
      AssignmentAt(d, r, 0);
      forall k: nat | k < |r| ensures ReadsPart(PairReader(d, sql), sql, r, parts, k) {
        AssignmentAt(d, r, k);
        assert PairPrintedAt(r, k);
        PairPartIsRead(d, sql, r, parts, k);
      }
      FirstIsAName(d, sql, i, parts, sep, r[0].0, " = " + Literal(d, r[0].1));
      ListIsRead(PairReader(d, sql), sql, i, r, parts, sep, text);
    }
  }

  lemma StopIsNoQuote(d: Dialect, sql: string, i: nat)
    requires StopsAt(sql, i)
    ensures NoQuoteAt(sql, i, NameQuote(d))
  {}

  lemma {:induction false} FirstIsAName(d: Dialect, sql: string, i: nat, parts: seq<string>, sep: string,
      name: string, more: string)
    requires parts != [] && parts[0] == QuoteIdent(d, name) + more && FoundAt(Join(parts, sep), sql, i)
    ensures i < |sql| && sql[i] == NameQuote(d)
  {
    var text := Join(parts, sep);
    assert text[0] == parts[0][0] == NameQuote(d);
    assert sql[i + 0] == text[0];
  }

  lemma {:induction false} IdentAt(d: Dialect, names: seq<string>, k: nat)
    requires k < |names|
    ensures |Idents(d, names)| == |names| && Idents(d, names)[k] == QuoteIdent(d, names[k])
    decreases |names|
  {
    if |names| > 1 { IdentAt(d, names[1..], if k == 0 then 0 else k - 1); }
  }

  lemma {:induction false} NamePartIsRead(d: Dialect, sql: string, names: seq<string>, parts: seq<string>, k: nat)
    requires k < |names| && k < |parts| && parts[k] == QuoteIdent(d, names[k])
    ensures ReadsPart(NameReader(d, sql), sql, names, parts, k)
  {
    forall i: nat | FoundAt(parts[k], sql, i) && StopsAt(sql, i + |parts[k]|)
      ensures NameReader(d, sql)(i) == Parsed(names[k], i + |parts[k]|)
    {
      StopIsNoQuote(d, sql, i + |parts[k]|);
      NameIsRead(d, sql, i, names[k]);
    }
  }

  lemma {:induction false} NamesAreRead(d: Dialect, sql: string, i: nat, names: seq<string>, text: string)
    requires text == Join(Idents(d, names), ", ") && FoundAt(text, sql, i)
    requires StopsAt(sql, i + |text|) && !MatchAt(sql, ", ", i + |text|)
    ensures ReadNames(d, sql, i) == Parsed(names, i + |text|)
  {
    if names == [] {
      assert text == "";
      StopIsNoQuote(d, sql, i);
    } else {
      var parts := Idents(d, names);
      IdentAt(d, names, 0);
      forall k: nat | k < |names| ensures ReadsPart(NameReader(d, sql), sql, names, parts, k) {
        IdentAt(d, names, k);
        NamePartIsRead(d, sql, names, parts, k);
      }
      assert parts[0] == QuoteIdent(d, names[0]) + "";
      FirstIsAName(d, sql, i, parts, ", ", names[0], "");
      ListIsRead(NameReader(d, sql), sql, i, names, parts, ", ", text);
    }
  }

  lemma {:induction false} LiteralAt(d: Dialect, row: seq<Value>, k: nat)
    requires k < |row|
    ensures |Literals(d, row)| == |row| && Literals(d, row)[k] == Literal(d, row[k])
    decreases |row|
  {
    if |row| > 1 { LiteralAt(d, row[1..], if k == 0 then 0 else k - 1); }
  }

  lemma {:induction false} ValuePartIsRead(d: Dialect, sql: string, row: seq<Value>, parts: seq<string>, k: nat)
    requires k < |row| && k < |parts| && parts[k] == Literal(d, row[k]) && Printed(row[k])
    ensures ReadsPart(ValueReader(d, sql), sql, row, parts, k)
  {
    forall i: nat | FoundAt(parts[k], sql, i) && StopsAt(sql, i + |parts[k]|)
      ensures ValueReader(d, sql)(i) == Parsed(row[k], i + |parts[k]|)
    {
      ValueIsRead(d, sql, i, row[k]);
    }
  }

  lemma LiteralIsNoParen(d: Dialect, v: Value)
    requires Printed(v)
    ensures Literal(d, v) != "" && Literal(d, v)[0] != ')'
  {
    if v.Number? { NumbersAreRuns(v.text); }
  }

  lemma {:induction false} ValuesAreRead(d: Dialect, sql: string, i: nat, row: seq<Value>, text: string)
    requires AllPrinted(row) && text == Join(Literals(d, row), ", ") && FoundAt(text, sql, i)
    requires i + |text| < |sql| && sql[i + |text|] == ')'
    ensures ReadValues(d, sql, i) == Parsed(row, i + |text|)
  {
    if row == [] {
      assert text == "";
    } else {
      var parts := Literals(d, row);
      LiteralAt(d, row, 0);
      forall k: nat | k < |row| ensures ReadsPart(ValueReader(d, sql), sql, row, parts, k) {
        LiteralAt(d, row, k);
        assert PrintedAt(row, k);
        ValuePartIsRead(d, sql, row, parts, k);
      }
      assert PrintedAt(row, 0);
      LiteralIsNoParen(d, row[0]);
      assert text[0] == parts[0][0] && sql[i + 0] == text[0];
      MatchTwo(sql, ", ", i + |text|);
      ListIsRead(ValueReader(d, sql), sql, i, row, parts, ", ", text);
    }
  }

  function RowText(d: Dialect, row: seq<Value>): string { "  (" + Join(Literals(d, row), ", ") + ")" }

  lemma {:induction false} RowIsRead(d: Dialect, sql: string, i: nat, row: seq<Value>, text: string)
    requires AllPrinted(row) && text == RowText(d, row) && FoundAt(text, sql, i)
    ensures ReadRow(d, sql, i) == Parsed(row, i + |text|)
  {
    var values := Join(Literals(d, row), ", ");
    FoundInParts("  (" + values, ")", sql, i);
    FoundInParts("  (", values, sql, i);
    MatchIsFound(sql, "  (", i);
    MatchIsFound(sql, ")", i + 3 + |values|);
    assert sql[i + 3 + |values| + 0] == ")"[0];
    ValuesAreRead(d, sql, i + 3, row, values);
  }

  lemma {:induction false} RowAt(d: Dialect, rows: seq<seq<Value>>, k: nat)
    requires k < |rows|
    ensures |Rows(d, rows)| == |rows| && Rows(d, rows)[k] == RowText(d, rows[k])
    decreases |rows|
  {
    if |rows| > 1 { RowAt(d, rows[1..], if k == 0 then 0 else k - 1); }
  }

  predicate RowPrintedAt(rows: seq<seq<Value>>, k: nat) { k < |rows| ==> AllPrinted(rows[k]) }

  predicate RowsPrinted(rows: seq<seq<Value>>) { forall k :: 0 <= k < |rows| ==> RowPrintedAt(rows, k) }

  lemma {:induction false} RowPartIsRead(d: Dialect, sql: string, rows: seq<seq<Value>>, parts: seq<string>, k: nat)
    requires k < |rows| && k < |parts| && parts[k] == RowText(d, rows[k]) && AllPrinted(rows[k])
    ensures ReadsPart(RowReader(d, sql), sql, rows, parts, k)
  {
    forall i: nat | FoundAt(parts[k], sql, i) && StopsAt(sql, i + |parts[k]|)
      ensures RowReader(d, sql)(i) == Parsed(rows[k], i + |parts[k]|)
    {
      RowIsRead(d, sql, i, rows[k], parts[k]);
    }
  }

  lemma {:induction false} RowsAreRead(d: Dialect, sql: string, i: nat, rows: seq<seq<Value>>, text: string)
    requires RowsPrinted(rows) && text == Join(Rows(d, rows), ",\n") && FoundAt(text, sql, i) && |sql| == i + |text|
    ensures ReadRows(d, sql, i) == Parsed(rows, |sql|)
  {
    if rows == [] {
      assert text == "";
    } else {
      var parts := Rows(d, rows);
      RowAt(d, rows, 0);
      forall k: nat | k < |rows| ensures ReadsPart(RowReader(d, sql), sql, rows, parts, k) {
        RowAt(d, rows, k);
        assert RowPrintedAt(rows, k);
        RowPartIsRead(d, sql, rows, parts, k);
      }
      assert |text| >= |parts[0]| > 0;
      ListIsRead(RowReader(d, sql), sql, i, rows, parts, ",\n", text);
    }
  }

  // ----- the statements -----

  lemma {:induction false} TableIsRead(d: Dialect, sql: string, i: nat, schema: string, table: string, text: string)
    requires text == Target(d, schema, table) && FoundAt(text, sql, i) && NoQuoteAt(sql, i + |text|, NameQuote(d))
    ensures ReadTable(d, sql, i) == Parsed((schema, table), i + |text|)
  {
    var s, t := QuoteIdent(d, schema), QuoteIdent(d, table);
    FoundInParts(s + ".", t, sql, i);
    FoundInParts(s, ".", sql, i);
    MatchIsFound(sql, ".", i + |s|);
    assert sql[i + |s| + 0] == "."[0];
    NameIsRead(d, sql, i, schema);
    NameIsRead(d, sql, i + |s| + 1, table);
  }

  lemma MatchStarts(sql: string, text: string, i: nat)
    requires text != ""
    ensures MatchAt(sql, text, i) ==> i < |sql| && sql[i] == text[0]
  {
    if MatchAt(sql, text, i) { assert sql[i + 0] == text[0]; }
  }

  lemma FoundStarts(sql: string, text: string, i: nat)
    requires text != "" && FoundAt(text, sql, i)
    ensures i < |sql| && sql[i] == text[0]
  {
    assert sql[i + 0] == text[0];
  }

  lemma {:induction false} SetIsRead(d: Dialect, sql: string, i: nat, updates: Record, sets: string)
    requires RecordPrinted(updates) && sets == Join(Assignments(d, updates), ",\n    ")
    requires FoundAt("\nSET ", sql, i) && FoundAt(sets, sql, i + 5)
    requires i + 5 + |sets| < |sql| && sql[i + 5 + |sets|] == '\n'
    ensures ReadSet(d, sql, i) == Parsed(updates, i + 5 + |sets|)
  {
    MatchStarts(sql, ",\n    ", i + 5 + |sets|);
    PairsAreRead(d, sql, i + 5, updates, ",\n    ", sets);
    MatchIsFound(sql, "\nSET ", i);
  }

  /** The key up to the end, with the blank before it or without one when there is no key. */
  lemma {:induction false} WhereIsRead(d: Dialect, sql: string, i: nat, key: Record, keys: string)
    requires RecordPrinted(key) && keys == Join(Assignments(d, key), " AND ") && FoundAt("\nWHERE", sql, i)
    requires if |sql| == i + 6 then key == []
      else sql[i + 6] == ' ' && FoundAt(keys, sql, i + 7) && |sql| == i + 7 + |keys|
    ensures ReadWhere(d, sql, i) == Some(key)
  {
    MatchIsFound(sql, "\nWHERE", i);
    if |sql| > i + 6 { PairsAreRead(d, sql, i + 7, key, " AND ", keys); }
  }

  lemma PartsOfUpdate(d: Dialect, sql: string, schema: string, table: string, c: Change, a: nat, b: nat)
    requires ReadTarget(d, sql, "UPDATE ") == Parsed((schema, table), a)
    requires ReadSet(d, sql, a) == Parsed(c.updates, b) && ReadWhere(d, sql, b) == Some(c.key)
    ensures ReadUpdate(d, sql) == Some(Update(schema, table, c.updates, c.key))
  {}

  /** The parts of an UPDATE in the text; the blank behind the WHERE and the key may be missing together. */
  ghost predicate UpdateLies(sql: string, target: string, sets: string, keys: string) {
    var a := 7 + |target|;
    var b := a + 5 + |sets|;
    && FoundAt("UPDATE ", sql, 0) && FoundAt(target, sql, 7) && FoundAt("\nSET ", sql, a)
    && FoundAt(sets, sql, a + 5) && FoundAt("\nWHERE", sql, b) && sql[a] == '\n' && sql[b] == '\n'
    && (|sql| == b + 6 || (|sql| == b + 7 + |keys| && sql[b + 6] == ' ' && FoundAt(keys, sql, b + 7)))
  }

  function UpdateStart(target: string, sets: string): string { "UPDATE " + (target + ("\nSET " + (sets + "\nWHERE"))) }

  lemma UpdateStartParts(sql: string, target: string, sets: string)
    requires FoundAt(UpdateStart(target, sets), sql, 0)
    ensures var a := 7 + |target|; var b := a + 5 + |sets|;
      && FoundAt("UPDATE ", sql, 0) && FoundAt(target, sql, 7) && FoundAt("\nSET ", sql, a)
      && FoundAt(sets, sql, a + 5) && FoundAt("\nWHERE", sql, b) && sql[a] == '\n' && sql[b] == '\n'
      && |UpdateStart(target, sets)| == b + 6
  {
    var where := sets + "\nWHERE";
    var rest := "\nSET " + where;
    FoundInParts("UPDATE ", target + rest, sql, 0);
    FoundInParts(target, rest, sql, 7);
    FoundInParts("\nSET ", where, sql, 7 + |target|);
    FoundInParts(sets, "\nWHERE", sql, 7 + |target| + 5);
    FoundStarts(sql, "\nSET ", 7 + |target|);
    FoundStarts(sql, "\nWHERE", 7 + |target| + 5 + |sets|);
  }

  /** The start, and nothing or a blank and the key behind it. */
  lemma StartAndRest(sql: string, start: string, keys: string)
    requires sql == start + (" " + keys) || sql == start
    ensures FoundAt(start, sql, 0)
    ensures |sql| == |start|
      || (|sql| == |start| + 1 + |keys| && sql[|start|] == ' ' && FoundAt(keys, sql, |start| + 1))
    ensures sql != start ==> |sql| > |start|
  {}

  lemma {:induction false} UpdateParts(sql: string, target: string, sets: string, keys: string, start: string)
    requires start == UpdateStart(target, sets) && (sql == start + (" " + keys) || sql == start)
    ensures UpdateLies(sql, target, sets, keys)
    ensures sql != start ==> |sql| > 18 + |target| + |sets|
  {
    StartAndRest(sql, start, keys);
    UpdateStartParts(sql, target, sets);
  }

  lemma WithoutBlank(sql: string, start: string)
    ensures sql + " " == start + (" " + "") ==> sql == start
  {
    if sql + " " == start + (" " + "") {
      assert sql == (sql + " ")[..|sql|] && start == (start + (" " + ""))[..|start|];
    }
  }

  lemma UpdateIs(d: Dialect, schema: string, table: string, c: Change, target: string, sets: string, keys: string)
    requires target == Target(d, schema, table)
    requires sets == Join(Assignments(d, c.updates), ",\n    ") && keys == Join(Assignments(d, c.key), " AND ")
    ensures UpdateBody(d, schema, table, c) == UpdateStart(target, sets) + (" " + keys)
    ensures c.key == [] ==> keys == ""
  {}

  function Sets(d: Dialect, c: Change): string { Join(Assignments(d, c.updates), ",\n    ") }

  function Keys(d: Dialect, c: Change): string { Join(Assignments(d, c.key), " AND ") }

  /** An UPDATE, or one without the blank at its end when there is no key. */
  ghost predicate IsUpdate(d: Dialect, sql: string, schema: string, table: string, c: Change) {
    sql == UpdateBody(d, schema, table, c) || (c.key == [] && sql + " " == UpdateBody(d, schema, table, c))
  }

  lemma {:induction false} PartsLieIn(d: Dialect, sql: string, schema: string, table: string, c: Change)
    requires IsUpdate(d, sql, schema, table, c)
    ensures UpdateLies(sql, Target(d, schema, table), Sets(d, c), Keys(d, c))
    ensures |sql| == 18 + |Target(d, schema, table)| + |Sets(d, c)| ==> c.key == []
  {
    var target, sets, keys := Target(d, schema, table), Sets(d, c), Keys(d, c);
    UpdateIs(d, schema, table, c, target, sets, keys);
    if c.key == [] { WithoutBlank(sql, UpdateStart(target, sets)); }
    UpdateParts(sql, target, sets, keys, UpdateStart(target, sets));
  }

  lemma {:induction false} TargetOfUpdate(d: Dialect, sql: string, schema: string, table: string, c: Change, a: nat)
    requires IsUpdate(d, sql, schema, table, c) && a == 7 + |Target(d, schema, table)|
    ensures ReadTarget(d, sql, "UPDATE ") == Parsed((schema, table), a)
  {
    PartsLieIn(d, sql, schema, table, c);
    TableIsRead(d, sql, 7, schema, table, Target(d, schema, table));
    MatchIsFound(sql, "UPDATE ", 0);
  }

  lemma {:induction false} SetOfUpdate(d: Dialect, sql: string, schema: string, table: string, c: Change, a: nat,
      b: nat)
    requires IsUpdate(d, sql, schema, table, c) && RecordPrinted(c.updates)
    requires a == 7 + |Target(d, schema, table)| && b == a + 5 + |Sets(d, c)|
    ensures ReadSet(d, sql, a) == Parsed(c.updates, b)
  {
    PartsLieIn(d, sql, schema, table, c);
    SetIsRead(d, sql, a, c.updates, Sets(d, c));
  }

  lemma {:induction false} WhereOfUpdate(d: Dialect, sql: string, schema: string, table: string, c: Change, b: nat)
    requires IsUpdate(d, sql, schema, table, c) && RecordPrinted(c.key)
    requires b == 12 + |Target(d, schema, table)| + |Sets(d, c)|
    ensures ReadWhere(d, sql, b) == Some(c.key)
  {
    PartsLieIn(d, sql, schema, table, c);
    WhereIsRead(d, sql, b, c.key, Keys(d, c));
  }

  /** What is read of an UPDATE. */
  lemma {:induction false} UpdateIsRead(d: Dialect, sql: string, schema: string, table: string, c: Change)
    requires RecordPrinted(c.updates) && RecordPrinted(c.key) && IsUpdate(d, sql, schema, table, c)
    ensures ReadUpdate(d, sql) == Some(Update(schema, table, c.updates, c.key))
  {
    var a := 7 + |Target(d, schema, table)|;
    var b := a + 5 + |Sets(d, c)|;
    TargetOfUpdate(d, sql, schema, table, c, a);
    SetOfUpdate(d, sql, schema, table, c, a, b);
    WhereOfUpdate(d, sql, schema, table, c, b);
    PartsOfUpdate(d, sql, schema, table, c, a, b);
  }

  /** The parts of an INSERT in the text; the line feed behind VALUES and the rows may be missing together. */
  ghost predicate InsertLies(sql: string, target: string, names: string, rows: string) {
    var a := 12 + |target|;
    var b := a + 2 + |names|;
    && FoundAt("INSERT INTO ", sql, 0) && FoundAt(target, sql, 12) && FoundAt(" (", sql, a)
    && FoundAt(names, sql, a + 2) && FoundAt(") VALUES", sql, b) && sql[a] == ' ' && sql[b] == ')'
    && (|sql| == b + 8 || (|sql| == b + 9 + |rows| && sql[b + 8] == '\n' && FoundAt(rows, sql, b + 9)))
  }

  lemma {:induction false} ColumnsAreRead(d: Dialect, sql: string, i: nat, columns: seq<string>, names: string)
    requires names == Join(Idents(d, columns), ", ") && FoundAt(" (", sql, i) && FoundAt(names, sql, i + 2)
    requires i + 2 + |names| < |sql| && sql[i + 2 + |names|] == ')'
    ensures ReadColumns(d, sql, i) == Parsed(columns, i + 2 + |names|)
  {
    MatchStarts(sql, ", ", i + 2 + |names|);
    NamesAreRead(d, sql, i + 2, columns, names);
    MatchIsFound(sql, " (", i);
  }

  lemma {:induction false} RowsAreReadToEnd(d: Dialect, sql: string, i: nat, rows: seq<seq<Value>>, text: string)
    requires RowsPrinted(rows) && text == Join(Rows(d, rows), ",\n") && FoundAt(") VALUES", sql, i)
    requires if |sql| == i + 8 then rows == []
      else sql[i + 8] == '\n' && FoundAt(text, sql, i + 9) && |sql| == i + 9 + |text|
    ensures ReadRowsToEnd(d, sql, i) == Some(rows)
  {
    MatchIsFound(sql, ") VALUES", i);
    if |sql| > i + 8 { RowsAreRead(d, sql, i + 9, rows, text); }
  }

  lemma PartsOfInsert(d: Dialect, sql: string, schema: string, table: string, columns: seq<string>,
      rows: seq<seq<Value>>, a: nat, b: nat)
    requires ReadTarget(d, sql, "INSERT INTO ") == Parsed((schema, table), a)
    requires ReadColumns(d, sql, a) == Parsed(columns, b) && ReadRowsToEnd(d, sql, b) == Some(rows)
    ensures ReadInsert(d, sql) == Some(Insert(schema, table, columns, rows))
  {}

  function InsertStart(target: string, names: string): string {
    "INSERT INTO " + (target + (" (" + (names + ") VALUES")))
  }

  lemma InsertStartParts(sql: string, target: string, names: string)
    requires FoundAt(InsertStart(target, names), sql, 0)
    ensures var a := 12 + |target|; var b := a + 2 + |names|;
      && FoundAt("INSERT INTO ", sql, 0) && FoundAt(target, sql, 12) && FoundAt(" (", sql, a)
      && FoundAt(names, sql, a + 2) && FoundAt(") VALUES", sql, b) && sql[a] == ' ' && sql[b] == ')'
      && |InsertStart(target, names)| == b + 8
  {
    var values := names + ") VALUES";
    var rest := " (" + values;
    FoundInParts("INSERT INTO ", target + rest, sql, 0);
    FoundInParts(target, rest, sql, 12);
    FoundInParts(" (", values, sql, 12 + |target|);
    FoundInParts(names, ") VALUES", sql, 12 + |target| + 2);
    FoundStarts(sql, " (", 12 + |target|);
    FoundStarts(sql, ") VALUES", 12 + |target| + 2 + |names|);
  }

  lemma StartAndRows(sql: string, start: string, rows: string)
    requires sql == start + ("\n" + rows) || sql == start
    ensures FoundAt(start, sql, 0)
    ensures |sql| == |start|
      || (|sql| == |start| + 1 + |rows| && sql[|start|] == '\n' && FoundAt(rows, sql, |start| + 1))
    ensures sql != start ==> |sql| > |start|
  {}

  lemma {:induction false} InsertParts(sql: string, target: string, names: string, rows: string, start: string)
    requires start == InsertStart(target, names) && (sql == start + ("\n" + rows) || sql == start)
    ensures InsertLies(sql, target, names, rows)
    ensures sql != start ==> |sql| > 22 + |target| + |names|
  {
    StartAndRows(sql, start, rows);
    InsertStartParts(sql, target, names);
  }

  lemma InsertIs(d: Dialect, schema: string, table: string, columns: seq<string>, rows: seq<seq<Value>>,
      target: string, names: string, text: string)
    requires target == Target(d, schema, table) && names == Join(Idents(d, columns), ", ")
    requires text == Join(Rows(d, rows), ",\n")
    ensures InsertBody(d, schema, table, columns, rows) == InsertStart(target, names) + ("\n" + text)
    ensures rows == [] ==> text == ""
  {}

  lemma WithoutLineFeed(sql: string, start: string)
    ensures sql + "\n" == start + ("\n" + "") ==> sql == start
  {
    if sql + "\n" == start + ("\n" + "") {
      assert sql == (sql + "\n")[..|sql|] && start == (start + ("\n" + ""))[..|start|];
    }
  }

  function ColumnNames(d: Dialect, columns: seq<string>): string { Join(Idents(d, columns), ", ") }

  function RowTexts(d: Dialect, rows: seq<seq<Value>>): string { Join(Rows(d, rows), ",\n") }

  /** An INSERT, or one without the line feed at its end when there are no rows. */
  ghost predicate IsInsert(d: Dialect, sql: string, schema: string, table: string, columns: seq<string>,
      rows: seq<seq<Value>>)
  {
    var body := InsertBody(d, schema, table, columns, rows);
    sql == body || (rows == [] && sql + "\n" == body)
  }

  lemma {:induction false} InsertPartsLieIn(d: Dialect, sql: string, schema: string, table: string,
      columns: seq<string>, rows: seq<seq<Value>>)
    requires IsInsert(d, sql, schema, table, columns, rows)
    ensures InsertLies(sql, Target(d, schema, table), ColumnNames(d, columns), RowTexts(d, rows))
    ensures |sql| == 22 + |Target(d, schema, table)| + |ColumnNames(d, columns)| ==> rows == []
  {
    var target, names, text := Target(d, schema, table), ColumnNames(d, columns), RowTexts(d, rows);
    InsertIs(d, schema, table, columns, rows, target, names, text);
    if rows == [] { WithoutLineFeed(sql, InsertStart(target, names)); }
    InsertParts(sql, target, names, text, InsertStart(target, names));
  }

  lemma {:induction false} TargetOfInsert(d: Dialect, sql: string, schema: string, table: string,
      columns: seq<string>, rows: seq<seq<Value>>, a: nat)
    requires IsInsert(d, sql, schema, table, columns, rows) && a == 12 + |Target(d, schema, table)|
    ensures ReadTarget(d, sql, "INSERT INTO ") == Parsed((schema, table), a)
  {
    InsertPartsLieIn(d, sql, schema, table, columns, rows);
    TableIsRead(d, sql, 12, schema, table, Target(d, schema, table));
    MatchIsFound(sql, "INSERT INTO ", 0);
  }

  lemma {:induction false} ColumnsOfInsert(d: Dialect, sql: string, schema: string, table: string,
      columns: seq<string>, rows: seq<seq<Value>>, a: nat, b: nat)
    requires IsInsert(d, sql, schema, table, columns, rows)
    requires a == 12 + |Target(d, schema, table)| && b == a + 2 + |ColumnNames(d, columns)|
    ensures ReadColumns(d, sql, a) == Parsed(columns, b)
  {
    InsertPartsLieIn(d, sql, schema, table, columns, rows);
    ColumnsAreRead(d, sql, a, columns, ColumnNames(d, columns));
  }

  lemma {:induction false} RowsOfInsert(d: Dialect, sql: string, schema: string, table: string,
      columns: seq<string>, rows: seq<seq<Value>>, b: nat)
    requires IsInsert(d, sql, schema, table, columns, rows) && RowsPrinted(rows)
    requires b == 14 + |Target(d, schema, table)| + |ColumnNames(d, columns)|
    ensures ReadRowsToEnd(d, sql, b) == Some(rows)
  {
    InsertPartsLieIn(d, sql, schema, table, columns, rows);
    RowsAreReadToEnd(d, sql, b, rows, RowTexts(d, rows));
  }

  /** What is read of an INSERT. */
  lemma {:induction false} InsertIsRead(d: Dialect, sql: string, schema: string, table: string,
      columns: seq<string>, rows: seq<seq<Value>>)
    requires RowsPrinted(rows) && IsInsert(d, sql, schema, table, columns, rows)
    ensures ReadInsert(d, sql) == Some(Insert(schema, table, columns, rows))
  {
    var a := 12 + |Target(d, schema, table)|;
    var b := a + 2 + |ColumnNames(d, columns)|;
    TargetOfInsert(d, sql, schema, table, columns, rows, a);
    ColumnsOfInsert(d, sql, schema, table, columns, rows, a, b);
    RowsOfInsert(d, sql, schema, table, columns, rows, b);
    PartsOfInsert(d, sql, schema, table, columns, rows, a, b);
  }
}

/** Rows and pending edits printed as SQL. */
module CopyRows {
  import opened Text

  datatype Dialect = Postgres | Sqlite | Mysql

  /** A cell: its text is that of a number, of a string, or the JSON of an object. */
  datatype Value = Null | Number(text: string) | Bool(value: bool) | Text(text: string)

  predicate NumberChar(c: char) { IsDigit(c) || c in ".+-eInfityNa" }

  predicate OneDash(text: string, k: nat) { k + 1 < |text| && text[k] == '-' ==> text[k + 1] != '-' }

  /** What JavaScript prints for a number, `NaN` and `-Infinity` included. */
  predicate IsNumber(text: string) {
    && (forall k :: 0 <= k < |text| ==> NumberChar(text[k]))
    && (forall k :: 0 <= k < |text| ==> OneDash(text, k))
  }

  predicate ValueOk(v: Value) { v.Number? ==> IsNumber(v.text) }

  function IdentQuote(d: Dialect): char { if d.Mysql? then '`' else '"' }

  function QuoteIdent(d: Dialect, name: string): string {
    [IdentQuote(d)] + Double(name, IdentQuote(d)) + [IdentQuote(d)]
  }

  function Escape(d: Dialect, s: string): string { if d.Mysql? then Double(Double(s, '\\'), '\'') else Double(s, '\'') }

  function Literal(d: Dialect, v: Value): string {
    match v
    case Null => "NULL"
    case Number(text) => text
    case Bool(b) => if b then "TRUE" else "FALSE"
    case Text(text) => "'" + Escape(d, text) + "'"
  }

  function Target(d: Dialect, schema: string, table: string): string {
    QuoteIdent(d, schema) + "." + QuoteIdent(d, table)
  }

  function Idents(d: Dialect, names: seq<string>): seq<string> {
    if names == [] then [] else [QuoteIdent(d, names[0])] + Idents(d, names[1..])
  }

  function Literals(d: Dialect, row: seq<Value>): seq<string> {
    if row == [] then [] else [Literal(d, row[0])] + Literals(d, row[1..])
  }

  function Rows(d: Dialect, rows: seq<seq<Value>>): seq<string> {
    if rows == [] then [] else ["  (" + Join(Literals(d, rows[0]), ", ") + ")"] + Rows(d, rows[1..])
  }

  /** An INSERT, without its semicolon. */
  function InsertBody(d: Dialect, schema: string, table: string, columns: seq<string>, rows: seq<seq<Value>>): string {
    "INSERT INTO " + (Target(d, schema, table)
      + (" (" + (Join(Idents(d, columns), ", ") + (") VALUES\n" + Join(Rows(d, rows), ",\n")))))
  }

  /** All rows in one statement. */
  function RowsToInsertSql(d: Dialect, schema: string, table: string, columns: seq<string>,
      rows: seq<seq<Value>>): string {
    InsertBody(d, schema, table, columns, rows) + ";"
  }

  /** The columns and values of a record, in its order. */
  type Record = seq<(string, Value)>

  datatype Change = Change(key: Record, updates: Record)

  function Assignments(d: Dialect, r: Record): seq<string> {
    if r == [] then [] else [QuoteIdent(d, r[0].0) + " = " + Literal(d, r[0].1)] + Assignments(d, r[1..])
  }

  /** An UPDATE, without its semicolon. */
  function UpdateBody(d: Dialect, schema: string, table: string, c: Change): string {
    "UPDATE " + (Target(d, schema, table) + ("\nSET " + (Join(Assignments(d, c.updates), ",\n    ")
    + ("\nWHERE " + Join(Assignments(d, c.key), " AND ")))))
  }

  function Updates(d: Dialect, schema: string, table: string, changes: seq<Change>): seq<string> {
    if changes == [] then []
      else [UpdateBody(d, schema, table, changes[0]) + ";"] + Updates(d, schema, table, changes[1..])
  }

  /** An UPDATE for each change, with its semicolon, and blank lines between. */
  function PendingChangesToSql(d: Dialect, schema: string, table: string, changes: seq<Change>): string {
    Join(Updates(d, schema, table, changes), "\n\n")
  }

  predicate RecordOk(r: Record) { forall k :: 0 <= k < |r| ==> ValueOk(r[k].1) }

  predicate ChangeOk(c: Change) { RecordOk(c.key) && RecordOk(c.updates) }
}

/**
 * What the printers write, for all three scanners alike: quoted names and literals with their quotes doubled,
 * and between them words without a `c` or an `m` (so neither CREATE nor DELIMITER), numbers and a few marks.
 */
module Pens {
  import opened Text
  import opened Automata
  import opened CopyRows

  datatype Pen =
    | Out(word: bool)       // outside quotes, after a letter or digit or not
    | Dash                  // … after a `-`
    | In(quote: char)
    | Escaped(quote: char)  // … after a backslash
    | Half(quote: char)     // outside, unless the quote that was just written is doubled
    | Bad

  predicate Calm(p: Pen) { p.Out? || p.Dash? || p.Half? }

  predicate PlainLetter(c: char) { IsDigit(c) || (IsLetter(c) && c != 'c' && c != 'C' && c != 'm' && c != 'M') }

  predicate PlainMark(c: char) {
    c == ' ' || c == '\n' || c == '.' || c == ',' || c == '(' || c == ')' || c == '=' || c == '+' || c == ';'
  }

  predicate PlainChar(c: char) { PlainLetter(c) || PlainMark(c) }

  predicate QuoteChar(d: Dialect, c: char) { c == '\'' || c == IdentQuote(d) }

  function PlainStep(c: char): Pen {
    if PlainLetter(c) then Out(true) else if PlainMark(c) then Out(false) else if c == '-' then Dash else Bad
  }

  function Step(d: Dialect, p: Pen, c: char): Pen {
    match p
    case Out(word) => if QuoteChar(d, c) then (if word then Bad else In(c)) else PlainStep(c)
    case Dash => if c == '-' || QuoteChar(d, c) then Bad else PlainStep(c)
    case In(q) => if c == q then Half(q) else if c == '\\' && d.Mysql? && q == '\'' then Escaped(q) else In(q)
    case Escaped(q) => In(q)
    case Half(q) => if c == q then In(q) else if QuoteChar(d, c) then Bad else PlainStep(c)
    case Bad => Bad
  }

  ghost predicate IsPen(m: Automaton<Pen>, d: Dialect) {
    && m.start == Out(false)
    && (forall p, c {:trigger Step(d, p, c)} :: m.step(p, c) == Step(d, p, c))
    && (forall p {:trigger Calm(p)} :: m.code(p) == Calm(p))
  }

  ghost function PenOf(d: Dialect): (m: Automaton<Pen>)
    ensures IsPen(m, d)
  {
    assert IsPen(Automaton(Out(false), (p, c) => Step(d, p, c), Calm), d);
    var m :| IsPen(m, d);
    m
  }

  /** Writing `text` from `p` ends at `q`, with no semicolon outside quotes on the way. */
  predicate Writes(d: Dialect, p: Pen, text: string, q: Pen)
    decreases |text|
  {
    if text == "" then p == q else !(text[0] == ';' && Calm(p)) && Writes(d, Step(d, p, text[0]), text[1..], q)
  }

  lemma {:induction false} WritesBoth(d: Dialect, p: Pen, a: string, q: Pen, b: string, r: Pen)
    requires Writes(d, p, a, q) && Writes(d, q, b, r)
    ensures Writes(d, p, a + b, r)
    decreases |a|
  {
    if a == "" {
      assert a + b == b;
    } else {
      WritesBoth(d, Step(d, p, a[0]), a[1..], q, b, r);
      assert (a + b)[1..] == a[1..] + b;
    }
  }

  /** A text of plain characters without a semicolon, that ends in a mark. */
  predicate IsPlain(text: string) {
    text != "" && PlainMark(text[|text| - 1]) && forall k :: 0 <= k < |text| ==> PlainChar(text[k]) && text[k] != ';'
  }

  lemma PlainIsNoQuote(d: Dialect, c: char)
    requires PlainChar(c)
    ensures !QuoteChar(d, c) && c != '-'
  {}

  lemma {:induction false} WritesPlain(d: Dialect, p: Pen, text: string)
    requires Calm(p) && IsPlain(text) && (p.Half? ==> QuoteChar(d, p.quote))
    ensures Writes(d, p, text, Out(false))
    decreases |text|
  {
    PlainIsNoQuote(d, text[0]);
    if |text| > 1 {
      WritesPlain(d, Step(d, p, text[0]), text[1..]);
    } else {
      assert text[1..] == "";
    }
  }

  // ----- quoted texts -----

  lemma {:induction false} WritesDoubled(d: Dialect, s: string, q: char)
    requires QuoteChar(d, q) && (d.Mysql? ==> q != '\'')
    ensures Writes(d, In(q), Double(s, q), In(q))
    decreases |s|
  {
    if s != "" {
      WritesDoubled(d, s[1..], q);
      var first := if s[0] == q then [q, q] else [s[0]];
      assert first[1..] == if s[0] == q then [q] else "";
      assert [q][1..] == "";
      assert Writes(d, In(q), first, In(q));
      WritesBoth(d, In(q), first, In(q), Double(s[1..], q), In(q));
    }
  }

  lemma DoubleConcat(a: string, b: string, c: char)
    ensures Double(a + b, c) == Double(a, c) + Double(b, c)
    decreases |a|
  {
    if a == "" {
      assert a + b == b;
    } else {
      assert (a + b)[1..] == a[1..] + b;
      DoubleConcat(a[1..], b, c);
    }
  }

  /** How MySQL's printer writes one character. */
  function EscapedChar(c: char): string { if c == '\\' then "\\\\" else if c == '\'' then "''" else [c] }

  lemma EscapeOne(c: char, rest: string)
    ensures Double(Double([c] + rest, '\\'), '\'') == EscapedChar(c) + Double(Double(rest, '\\'), '\'')
  {
    assert ([c] + rest)[1..] == rest;
    var first := if c == '\\' then "\\\\" else [c];
    DoubleConcat(first, Double(rest, '\\'), '\'');
    assert "\\\\"[1..] == "\\" && "\\"[1..] == "" && [c][1..] == "";
    assert Double("", '\'') == "";
    assert Double("\\", '\'') == "\\";
    assert Double("\\\\", '\'') == "\\\\";
    assert Double([c], '\'') == if c == '\'' then "''" else [c];
  }

  lemma WritesEscapedChar(c: char)
    ensures Writes(Mysql, In('\''), EscapedChar(c), In('\''))
  {
    var s := EscapedChar(c);
    assert s[1..] == if c == '\\' then "\\" else if c == '\'' then "'" else "";
    assert "\\"[1..] == "" && "'"[1..] == "";
  }

  lemma {:induction false} WritesEscaped(s: string)
    ensures Writes(Mysql, In('\''), Double(Double(s, '\\'), '\''), In('\''))
    decreases |s|
  {
    if s == "" {
      assert Double("", '\\') == "" && Double("", '\'') == "";
    } else {
      assert s == [s[0]] + s[1..];
      EscapeOne(s[0], s[1..]);
      WritesEscapedChar(s[0]);
      WritesEscaped(s[1..]);
      WritesBoth(Mysql, In('\''), EscapedChar(s[0]), In('\''), Double(Double(s[1..], '\\'), '\''), In('\''));
    }
  }

  lemma WritesQuoted(d: Dialect, q: char, inner: string)
    requires QuoteChar(d, q) && Writes(d, In(q), inner, In(q))
    ensures Writes(d, Out(false), [q] + inner + [q], Half(q))
  {
    assert [q][1..] == "";
    WritesBoth(d, Out(false), [q], In(q), inner, In(q));
    WritesBoth(d, Out(false), [q] + inner, In(q), [q], Half(q));
  }

  /** A quoted name is written as one quoted text, whatever is in it. */
  lemma WritesIdent(d: Dialect, name: string)
    ensures Writes(d, Out(false), QuoteIdent(d, name), Half(IdentQuote(d)))
  {
    WritesDoubled(d, name, IdentQuote(d));
    WritesQuoted(d, IdentQuote(d), Double(name, IdentQuote(d)));
  }

  // ----- values -----

  /** Where the pen can be after a text that a mark may follow. */
  predicate Ends(d: Dialect, p: Pen) { Calm(p) && (p.Half? ==> QuoteChar(d, p.quote)) }

  ghost predicate WritesOut(d: Dialect, text: string) { exists q :: Writes(d, Out(false), text, q) && Ends(d, q) }

  lemma WritesOutBy(d: Dialect, text: string, q: Pen)
    requires Writes(d, Out(false), text, q) && Ends(d, q)
    ensures WritesOut(d, text)
  {}

  lemma NumberGoesOn(text: string)
    requires IsNumber(text) && text != ""
    ensures IsNumber(text[1..])
  {
    var rest := text[1..];
    forall k | 0 <= k < |rest| ensures NumberChar(rest[k]) && OneDash(rest, k) {
      assert OneDash(text, k + 1);
      assert rest[k] == text[k + 1];
    }
  }

  lemma {:induction false} WritesNumber(d: Dialect, p: Pen, text: string) returns (q: Pen)
    requires IsNumber(text) && (p.Out? || (p.Dash? && (text != "" ==> text[0] != '-')))
    ensures Writes(d, p, text, q) && (q.Out? || q.Dash?)
    decreases |text|
  {
    q := p;
    if text != "" {
      NumberCharIsPlain(d, text[0]);
      assert OneDash(text, 0);
      NumberGoesOn(text);
      q := WritesNumber(d, Step(d, p, text[0]), text[1..]);
    }
  }

  lemma NumberCharIsPlain(d: Dialect, c: char)
    requires NumberChar(c)
    ensures (PlainChar(c) || c == '-') && c != ';' && !QuoteChar(d, c)
  {}

  /** A literal is written with every quote closed again, whatever is in it. */
  lemma WritesLiteral(d: Dialect, v: Value)
    requires ValueOk(v)
    ensures WritesOut(d, Literal(d, v))
  {
    match v
    case Null => WritesWord(d, "NULL");
    case Number(text) =>
      var q := WritesNumber(d, Out(false), text);
      WritesOutBy(d, text, q);
    case Bool(b) => WritesWord(d, if b then "TRUE" else "FALSE");
    case Text(text) =>
      if d.Mysql? { WritesEscaped(text); } else { WritesDoubled(d, text, '\''); }
      WritesQuoted(d, '\'', Escape(d, text));
      WritesOutBy(d, Literal(d, v), Half('\''));
  }

  lemma WritesWord(d: Dialect, word: string)
    requires word != "" && forall k :: 0 <= k < |word| ==> PlainLetter(word[k])
    ensures WritesOut(d, word)
  {
    WritesLetters(d, false, word);
    WritesOutBy(d, word, Out(true));
  }

  lemma {:induction false} WritesLetters(d: Dialect, after: bool, word: string)
    requires forall k :: 0 <= k < |word| ==> PlainLetter(word[k])
    ensures Writes(d, Out(after), word, Out(after || word != ""))
    decreases |word|
  {
    if word != "" {
      PlainIsNoQuote(d, word[0]);
      WritesLetters(d, true, word[1..]);
    }
  }

  // ----- statements -----

  /** A plain text behind a text that has been written. */
  lemma ThenPlain(d: Dialect, a: string, plain: string)
    requires WritesOut(d, a) && IsPlain(plain)
    ensures Writes(d, Out(false), a + plain, Out(false))
  {
    var q :| Writes(d, Out(false), a, q) && Ends(d, q);
    WritesPlain(d, q, plain);
    WritesBoth(d, Out(false), a, q, plain, Out(false));
  }

  lemma Then(d: Dialect, a: string, b: string)
    requires Writes(d, Out(false), a, Out(false)) && WritesOut(d, b)
    ensures WritesOut(d, a + b)
  {
    var q :| Writes(d, Out(false), b, q) && Ends(d, q);
    WritesBoth(d, Out(false), a, Out(false), b, q);
    WritesOutBy(d, a + b, q);
  }

  /** `a`, a plain text, `b`. */
  lemma Around(d: Dialect, a: string, plain: string, b: string)
    requires WritesOut(d, a) && IsPlain(plain) && WritesOut(d, b)
    ensures WritesOut(d, a + (plain + b)) && WritesOut(d, a + plain + b)
  {
    ThenPlain(d, a, plain);
    Then(d, a + plain, b);
    assert a + plain + b == a + (plain + b);
  }

  lemma PlainThen(d: Dialect, plain: string, b: string)
    requires IsPlain(plain) && WritesOut(d, b)
    ensures WritesOut(d, plain + b)
  {
    WritesPlain(d, Out(false), plain);
    Then(d, plain, b);
  }

  lemma WritesNothing(d: Dialect)
    ensures WritesOut(d, "")
  {
    WritesOutBy(d, "", Out(false));
  }

  lemma {:induction false} WritesJoin(d: Dialect, parts: seq<string>, sep: string)
    requires (forall k :: 0 <= k < |parts| ==> WritesOut(d, parts[k])) && IsPlain(sep)
    ensures WritesOut(d, Join(parts, sep))
    decreases |parts|
  {
    if |parts| == 0 {
      WritesNothing(d);
    } else if |parts| > 1 {
      WritesJoin(d, parts[1..], sep);
      Around(d, parts[0], sep, Join(parts[1..], sep));
    }
  }

  lemma WritesName(d: Dialect, name: string)
    ensures WritesOut(d, QuoteIdent(d, name))
  {
    WritesIdent(d, name);
    WritesOutBy(d, QuoteIdent(d, name), Half(IdentQuote(d)));
  }

  lemma {:induction false} WritesIdents(d: Dialect, names: seq<string>)
    ensures forall k :: 0 <= k < |Idents(d, names)| ==> WritesOut(d, Idents(d, names)[k])
    decreases |names|
  {
    if names != [] {
      WritesName(d, names[0]);
      WritesIdents(d, names[1..]);
    }
  }

  lemma {:induction false} WritesLiterals(d: Dialect, row: seq<Value>)
    requires forall k :: 0 <= k < |row| ==> ValueOk(row[k])
    ensures forall k :: 0 <= k < |Literals(d, row)| ==> WritesOut(d, Literals(d, row)[k])
    decreases |row|
  {
    if row != [] {
      WritesLiteral(d, row[0]);
      WritesLiterals(d, row[1..]);
    }
  }

  lemma {:induction false} WritesAssignments(d: Dialect, r: Record)
    requires RecordOk(r)
    ensures forall k :: 0 <= k < |Assignments(d, r)| ==> WritesOut(d, Assignments(d, r)[k])
    decreases |r|
  {
    if r != [] {
      WritesName(d, r[0].0);
      WritesLiteral(d, r[0].1);
      Around(d, QuoteIdent(d, r[0].0), " = ", Literal(d, r[0].1));
      WritesAssignments(d, r[1..]);
    }
  }

  lemma WritesRecord(d: Dialect, r: Record, sep: string)
    requires RecordOk(r) && IsPlain(sep)
    ensures WritesOut(d, Join(Assignments(d, r), sep))
  {
    WritesAssignments(d, r);
    WritesJoin(d, Assignments(d, r), sep);
  }

  lemma WritesTarget(d: Dialect, schema: string, table: string)
    ensures WritesOut(d, Target(d, schema, table))
  {
    WritesName(d, schema);
    WritesName(d, table);
    Around(d, QuoteIdent(d, schema), ".", QuoteIdent(d, table));
  }

  lemma InsertTextsArePlain()
    ensures IsPlain("INSERT INTO ") && IsPlain(" (") && IsPlain(") VALUES\n")
  {}

  lemma UpdateTextsArePlain()
    ensures IsPlain("UPDATE ") && IsPlain("\nSET ") && IsPlain("\nWHERE ") && IsPlain(",\n    ") && IsPlain(" AND ")
  {}

  /** Three texts with plain ones in front and between. */
  lemma WritesStatement(d: Dialect, first: string, a: string, second: string, b: string, third: string, c: string)
    requires IsPlain(first) && IsPlain(second) && IsPlain(third) && WritesOut(d, a) && WritesOut(d, b)
    requires WritesOut(d, c)
    ensures WritesOut(d, first + (a + (second + (b + (third + c)))))
  {
    Around(d, b, third, c);
    Around(d, a, second, b + (third + c));
    PlainThen(d, first, a + (second + (b + (third + c))));
  }

  /** An UPDATE is written without a semicolon outside quotes, and with every quote closed. */
  lemma WritesUpdate(d: Dialect, schema: string, table: string, c: Change)
    requires ChangeOk(c)
    ensures WritesOut(d, UpdateBody(d, schema, table, c))
  {
    UpdateTextsArePlain();
    WritesRecord(d, c.updates, ",\n    ");
    WritesRecord(d, c.key, " AND ");
    var updates, key := Join(Assignments(d, c.updates), ",\n    "), Join(Assignments(d, c.key), " AND ");
    WritesTarget(d, schema, table);
    WritesStatement(d, "UPDATE ", Target(d, schema, table), "\nSET ", updates, "\nWHERE ", key);
  }

  lemma {:induction false} WritesRows(d: Dialect, rows: seq<seq<Value>>)
    requires forall r :: r in rows ==> forall k :: 0 <= k < |r| ==> ValueOk(r[k])
    ensures forall k :: 0 <= k < |Rows(d, rows)| ==> WritesOut(d, Rows(d, rows)[k])
    decreases |rows|
  {
    if rows != [] {
      WritesLiterals(d, rows[0]);
      WritesJoin(d, Literals(d, rows[0]), ", ");
      WritesInParens(d, Join(Literals(d, rows[0]), ", "));
      WritesRows(d, rows[1..]);
    }
  }

  lemma WritesInParens(d: Dialect, inner: string)
    requires WritesOut(d, inner)
    ensures WritesOut(d, "  (" + inner + ")")
  {
    PlainThen(d, "  (", inner);
    ThenPlain(d, "  (" + inner, ")");
    WritesOutBy(d, "  (" + inner + ")", Out(false));
  }

  lemma WritesInsert(d: Dialect, schema: string, table: string, columns: seq<string>, rows: seq<seq<Value>>)
    requires forall r :: r in rows ==> forall k :: 0 <= k < |r| ==> ValueOk(r[k])
    ensures WritesOut(d, InsertBody(d, schema, table, columns, rows))
  {
    var names, values := Join(Idents(d, columns), ", "), Join(Rows(d, rows), ",\n");
    WritesNames(d, columns);
    WritesValues(d, rows);
    WritesTarget(d, schema, table);
    InsertTextsArePlain();
    WritesStatement(d, "INSERT INTO ", Target(d, schema, table), " (", names, ") VALUES\n", values);
  }

  lemma WritesNames(d: Dialect, columns: seq<string>)
    ensures WritesOut(d, Join(Idents(d, columns), ", "))
  {
    WritesIdents(d, columns);
    WritesJoin(d, Idents(d, columns), ", ");
  }

  lemma WritesValues(d: Dialect, rows: seq<seq<Value>>)
    requires forall r :: r in rows ==> forall k :: 0 <= k < |r| ==> ValueOk(r[k])
    ensures WritesOut(d, Join(Rows(d, rows), ",\n"))
  {
    WritesRows(d, rows);
    WritesJoin(d, Rows(d, rows), ",\n");
  }
}

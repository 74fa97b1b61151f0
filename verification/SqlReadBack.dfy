/** What the printers print, the splitter splits and a server reads. */
module SqlReadBack {
  import opened Text
  import opened Statements
  import opened CopyRows
  import opened SqlReader
  import opened SqlRoundTrips
  import opened PrintedRows

  predicate EndsVisibly(s: string) { s != "" && !IsSpace(s[|s| - 1]) }

  lemma TrimmedIs(s: string)
    requires EndsVisibly(s)
    ensures TrimEnd(s) == s
  {}

  lemma TrimsOne(s: string, body: string, c: char)
    requires EndsVisibly(s) && IsSpace(c) && body == s + [c]
    ensures TrimEnd(body) == s
  {
    assert BackSpaces(body, 0, |body|) == BackSpaces(body, 0, |s|) == |s|;
  }

  lemma {:induction false} JoinEnds(parts: seq<string>, sep: string)
    requires parts != [] && EndsVisibly(parts[|parts| - 1])
    ensures EndsVisibly(Join(parts, sep))
    decreases |parts|
  {
    if |parts| > 1 {
      JoinEnds(parts[1..], sep);
      var rest := Join(parts[1..], sep);
      assert (parts[0] + sep + rest)[|parts[0] + sep + rest| - 1] == rest[|rest| - 1];
    }
  }

  lemma {:induction false} LiteralEnds(d: Dialect, v: Value)
    requires Printed(v)
    ensures EndsVisibly(Literal(d, v))
  {
    var text := Literal(d, v);
    if v.Number? { NumbersAreRuns(v.text); }
    NotSpace(text[|text| - 1]);
  }

  lemma {:induction false} PairsEnd(d: Dialect, r: Record, sep: string)
    requires RecordPrinted(r) && r != []
    ensures EndsVisibly(Join(Assignments(d, r), sep))
  {
    var k := |r| - 1;
    AssignmentAt(d, r, k);
    assert PairPrintedAt(r, k);
    LiteralEnds(d, r[k].1);
    JoinEnds(Assignments(d, r), sep);
  }

  lemma EndOf(start: string, c: char, rest: string)
    ensures EndsVisibly(rest) ==> EndsVisibly(start + ([c] + rest))
    ensures rest == "" ==> start + ([c] + rest) == start + [c]
  {}

  lemma UpdateStartEnds(target: string, sets: string)
    ensures EndsVisibly(UpdateStart(target, sets))
  {
    NotSpace('E');
  }

  /** The range of an UPDATE is read back. */
  lemma {:induction false} TrimmedUpdateIsRead(d: Dialect, schema: string, table: string, c: Change)
    requires RecordPrinted(c.updates) && RecordPrinted(c.key)
    ensures ReadUpdate(d, TrimEnd(UpdateBody(d, schema, table, c))) ==
      Some(Update(schema, table, c.updates, c.key))
  {
    var target, sets := Target(d, schema, table), Join(Assignments(d, c.updates), ",\n    ");
    var keys, start := Join(Assignments(d, c.key), " AND "), UpdateStart(target, sets);
    var body := UpdateBody(d, schema, table, c);
    UpdateIs(d, schema, table, c, target, sets, keys);
    EndOf(start, ' ', keys);
    if c.key == [] {
      CommonSpaces();
      UpdateStartEnds(target, sets);
      TrimsOne(start, body, ' ');
      UpdateIsRead(d, start, schema, table, c);
    } else {
      PairsEnd(d, c.key, " AND ");
      TrimmedIs(body);
      UpdateIsRead(d, body, schema, table, c);
    }
  }

  lemma InsertStartEnds(target: string, names: string)
    ensures EndsVisibly(InsertStart(target, names))
  {
    NotSpace('S');
  }

  lemma {:induction false} RowsEnd(d: Dialect, rows: seq<seq<Value>>)
    requires rows != []
    ensures EndsVisibly(Join(Rows(d, rows), ",\n"))
  {
    var k := |rows| - 1;
    RowAt(d, rows, k);
    NotSpace(')');
    JoinEnds(Rows(d, rows), ",\n");
  }

  /** The range of an INSERT is read back. */
  lemma {:induction false} TrimmedInsertIsRead(d: Dialect, schema: string, table: string, columns: seq<string>,
      rows: seq<seq<Value>>)
    requires RowsPrinted(rows)
    ensures ReadInsert(d, TrimEnd(InsertBody(d, schema, table, columns, rows))) ==
      Some(Insert(schema, table, columns, rows))
  {
    var target, names := Target(d, schema, table), Join(Idents(d, columns), ", ");
    var text, start := Join(Rows(d, rows), ",\n"), InsertStart(target, names);
    var body := InsertBody(d, schema, table, columns, rows);
    InsertIs(d, schema, table, columns, rows, target, names, text);
    EndOf(start, '\n', text);
    if rows == [] {
      CommonSpaces();
      InsertStartEnds(target, names);
      TrimsOne(start, body, '\n');
      InsertIsRead(d, start, schema, table, columns, rows);
    } else {
      RowsEnd(d, rows);
      TrimmedIs(body);
      InsertIsRead(d, body, schema, table, columns, rows);
    }
  }

  // ----- printed, split and read -----

  predicate ChangePrintedAt(changes: seq<Change>, k: nat) {
    k < |changes| ==> RecordPrinted(changes[k].key) && RecordPrinted(changes[k].updates)
  }

  predicate ChangesPrinted(changes: seq<Change>) { forall k :: 0 <= k < |changes| ==> ChangePrintedAt(changes, k) }

  lemma RecordIsOk(r: Record)
    requires RecordPrinted(r)
    ensures RecordOk(r)
  {
    forall k | 0 <= k < |r| ensures ValueOk(r[k].1) { assert PairPrintedAt(r, k); }
  }

  /** The text of the range `k` is read as the change `k`. */
  ghost predicate ReadsChange(d: Dialect, sql: string, ranges: seq<Range>, schema: string, table: string,
      changes: seq<Change>, k: nat) {
    k < |ranges| && k < |changes| && ranges[k].from <= ranges[k].to <= |sql| &&
    ReadUpdate(d, sql[ranges[k].from..ranges[k].to]) ==
      Some(Update(schema, table, changes[k].updates, changes[k].key))
  }

  /**
   * Whatever the names and values are: printed, split by the splitter of the dialect and read, the changes come back,
   * each with its table, its new values and its key.
   */
  lemma {:induction false} ChangesComeBack(d: Dialect, schema: string, table: string, changes: seq<Change>)
    requires ChangesPrinted(changes)
    ensures var sql := PendingChangesToSql(d, schema, table, changes);
      var ranges := Ranges(d, sql);
      |ranges| == |changes| && forall k: nat :: k < |changes| ==>
        ReadsChange(d, sql, ranges, schema, table, changes, k)
  {
    forall k | 0 <= k < |changes| ensures ChangeOk(changes[k]) {
      assert ChangePrintedAt(changes, k);
      RecordIsOk(changes[k].key);
      RecordIsOk(changes[k].updates);
    }
    OneRangePerChange(d, schema, table, changes);
    var sql := PendingChangesToSql(d, schema, table, changes);
    forall k: nat | k < |changes| ensures ReadsChange(d, sql, Ranges(d, sql), schema, table, changes, k) {
      assert ChangePrintedAt(changes, k);
      TrimmedUpdateIsRead(d, schema, table, changes[k]);
      assert HasText(sql, Ranges(d, sql)[k], UpdateBodies(d, schema, table, changes)[k]);
    }
  }

  lemma TrimmedPrefix(body: string)
    ensures |TrimEnd(body)| <= |body + ";"| && (body + ";")[0..|TrimEnd(body)|] == TrimEnd(body)
  {}

  /** And so do the columns and rows of an INSERT. */
  lemma {:induction false} RowsComeBack(d: Dialect, schema: string, table: string, columns: seq<string>,
      rows: seq<seq<Value>>)
    requires RowsPrinted(rows)
    ensures var sql := RowsToInsertSql(d, schema, table, columns, rows);
      var ranges := Ranges(d, sql);
      |ranges| == 1 && ranges[0].from <= ranges[0].to <= |sql| &&
      ReadInsert(d, sql[ranges[0].from..ranges[0].to]) == Some(Insert(schema, table, columns, rows))
  {
    forall r | r in rows ensures forall k :: 0 <= k < |r| ==> ValueOk(r[k]) {
      var j :| 0 <= j < |rows| && rows[j] == r;
      assert RowPrintedAt(rows, j);
      forall k | 0 <= k < |r| ensures ValueOk(r[k]) { assert PrintedAt(r, k); }
    }
    OneRangePerInsert(d, schema, table, columns, rows);
    TrimmedInsertIsRead(d, schema, table, columns, rows);
    TrimmedPrefix(InsertBody(d, schema, table, columns, rows));
  }
}

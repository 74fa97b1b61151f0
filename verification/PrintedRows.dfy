/** Each printed statement comes back as one range. */
module PrintedRows {
  import opened Text
  import opened Statements
  import opened Automata
  import opened CopyRows
  import opened Pens
  import opened PenCuts
  import PG = PostgresSplitter
  import SL = SqliteSplitter
  import MY = MysqlSplitter
  import PostgresRows
  import SqliteRows
  import MysqlRows

  /** The ranges of a script in a dialect. */
  ghost function Ranges(d: Dialect, sql: string): seq<Range> {
    match d
    case Postgres => PG.SplitAtCode(sql)
    case Sqlite => SL.SplitAtSeparators(sql)
    case Mysql => MY.Split([], sql, 0, MY.Fresh(0))
  }

  method SplitStatements(sql: string, d: Dialect) returns (ranges: seq<Range>)
    ensures ranges == Ranges(d, sql)
  {
    if d.Sqlite? {
      ranges := SL.SplitSqlite(sql);
    } else if d.Mysql? {
      ranges := MY.SplitMysql(sql);
    } else {
      ranges := PG.SplitPostgres(sql);
    }
  }

  function Keep(d: Dialect): string -> bool { if d.Mysql? then MY.KeepAll else HasStatementText }

  lemma RangesOfWritten(d: Dialect, sql: string)
    requires Written(d, sql)
    ensures Ranges(d, sql) == SplitAt(sql, Cuts(PenOf(d), sql), Keep(d))
  {
    match d
    case Postgres => PostgresRows.PostgresCuts(sql);
    case Sqlite => SqliteRows.SqliteCuts(sql);
    case Mysql => MysqlRows.MysqlCuts(sql);
  }

  // ----- statements with their semicolons, blank lines between -----

  function Script(bodies: seq<string>): string {
    if |bodies| == 0 then ""
      else if |bodies| == 1 then bodies[0] + ";" else bodies[0] + ";" + "\n\n" + Script(bodies[1..])
  }

  /** Where the statements of such a script from `i` on are, without the blanks at their ends. */
  function Places(bodies: seq<string>, i: nat): seq<Range> {
    if bodies == [] then [] else [Range(i, i + |TrimEnd(bodies[0])|)] + Places(bodies[1..], i + |bodies[0]| + 3)
  }

  /** A statement that the printers write. */
  ghost predicate IsBody(d: Dialect, body: string) { WritesOut(d, body) && body != "" && IsLetter(body[0]) }

  ghost predicate AreBodies(d: Dialect, bodies: seq<string>) { forall k :: 0 <= k < |bodies| ==> IsBody(d, bodies[k]) }

  ghost predicate NoCutAt(d: Dialect, sql: string, k: nat) { k !in Cuts(PenOf(d), sql) }

  predicate BlankAt(sql: string, k: nat)
    requires k < |sql|
  {
    IsSpace(sql[k])
  }

  /** Blanks, and no cut. */
  ghost predicate Between(d: Dialect, sql: string, i: nat, j: nat) {
    && i <= j <= |sql|
    && (forall k: nat {:trigger BlankAt(sql, k)} :: i <= k < j ==> BlankAt(sql, k))
    && (forall k: nat {:trigger NoCutAt(d, sql, k)} :: i <= k < j ==> NoCutAt(d, sql, k))
  }

  /** Writing a statement and its semicolon: the semicolon is the only cut. */
  lemma WritesBody(d: Dialect, sql: string, i: nat, body: string)
    requires IsBody(d, body) && FoundAt(body, sql, i) && i + |body| < |sql| && sql[i + |body|] == ';'
    requires StateAt(PenOf(d), sql, i) == Out(false)
    ensures var e := i + |body|;
      e in Cuts(PenOf(d), sql) && StateAt(PenOf(d), sql, e + 1) == Out(false)
        && forall k: nat {:trigger NoCutAt(d, sql, k)} :: i <= k < e ==> NoCutAt(d, sql, k)
  {
    var q :| Writes(d, Out(false), body, q) && Ends(d, q);
    WritesPart(d, sql, i, body, q);
    PenStep(d, sql, i + |body|);
    assert Step(d, q, ';') == Out(false);
  }

  /** The piece of a statement, with blanks in front. */
  lemma PieceOfBody(d: Dialect, sql: string, start: nat, i: nat, body: string)
    requires body != "" && IsLetter(body[0]) && FoundAt(body, sql, i) && Between(d, sql, start, i)
    ensures i + |body| <= |sql| && Piece(sql, start, i + |body|, Keep(d)) == Some(Range(i, i + |TrimEnd(body)|))
  {
    var e := i + |body|;
    assert sql[i + 0] == body[0];
    NotSpace(body[0]);
    forall k | start <= k < i ensures IsSpace(sql[k]) { assert BlankAt(sql, k); }
    SkipSpacesIs(sql, start, e, i);
    BackSpacesInside(body, sql, i, 0, |body|);
    var t := BackSpaces(sql, i, e);
    if t == i { BacksBlanks(sql, i, e, i); }
    LetterIsText(sql[i..t]);
  }

  lemma WritesBlankLine(d: Dialect, sql: string, i: nat)
    requires i + 2 <= |sql| && sql[i] == '\n' == sql[i + 1] && StateAt(PenOf(d), sql, i) == Out(false)
    ensures StateAt(PenOf(d), sql, i + 2) == Out(false) && Between(d, sql, i, i + 2)
  {
    CommonSpaces();
    PenStep(d, sql, i);
    PenStep(d, sql, i + 1);
  }

  ghost function PenChunks(d: Dialect, sql: string, start: nat): seq<Range>
    requires start <= |sql|
  {
    Chunks(sql, start, start, Cuts(PenOf(d), sql), Keep(d))
  }

  /** The statements from `i` on, each with its semicolon, blank lines between. */
  ghost predicate Laid(sql: string, i: nat, bodies: seq<string>)
    decreases |bodies|
  {
    if bodies == [] then i == |sql|
    else
      var e := i + |bodies[0]|;
      && FoundAt(bodies[0], sql, i) && e < |sql| && sql[e] == ';'
      && if |bodies| == 1 then e + 1 == |sql|
         else e + 3 <= |sql| && sql[e + 1] == '\n' == sql[e + 2] && Laid(sql, e + 3, bodies[1..])
  }

  /** Where a statement starts. */
  ghost predicate StartsAt(d: Dialect, sql: string, start: nat, i: nat, bodies: seq<string>) {
    Between(d, sql, start, i) && StateAt(PenOf(d), sql, i) == Out(false) && Laid(sql, i, bodies)
  }

  lemma SkipTo(d: Dialect, sql: string, start: nat, e: nat)
    requires start <= e <= |sql| && forall k: nat {:trigger NoCutAt(d, sql, k)} :: start <= k < e ==> NoCutAt(d, sql, k)
    ensures PenChunks(d, sql, start) == Chunks(sql, start, e, Cuts(PenOf(d), sql), Keep(d))
  {
    forall k: nat | start <= k < e ensures k !in Cuts(PenOf(d), sql) { assert NoCutAt(d, sql, k); }
    ChunksSkip(sql, start, start, e, Cuts(PenOf(d), sql), Keep(d));
  }

  lemma {:induction false} OneStatement(d: Dialect, sql: string, start: nat, i: nat, body: string)
    requires IsBody(d, body) && FoundAt(body, sql, i) && i + |body| < |sql| && sql[i + |body|] == ';'
    requires StateAt(PenOf(d), sql, i) == Out(false) && Between(d, sql, start, i)
    ensures var e := i + |body| + 1;
      StateAt(PenOf(d), sql, e) == Out(false)
        && PenChunks(d, sql, start) == [Range(i, i + |TrimEnd(body)|)] + PenChunks(d, sql, e)
  {
    var e := i + |body|;
    WritesBody(d, sql, i, body);
    SkipTo(d, sql, start, e);
    PieceOfBody(d, sql, start, i, body);
  }

  lemma PlacesOfFirst(bodies: seq<string>, i: nat)
    requires bodies != []
    ensures Places(bodies, i) == [Range(i, i + |TrimEnd(bodies[0])|)]
      + (if |bodies| == 1 then [] else Places(bodies[1..], i + |bodies[0]| + 3))
  {
    if |bodies| == 1 { assert bodies[1..] == []; }
  }

  lemma {:induction false} FirstIsSplit(d: Dialect, sql: string, start: nat, i: nat, bodies: seq<string>)
    requires bodies != [] && IsBody(d, bodies[0]) && StartsAt(d, sql, start, i, bodies)
    ensures var e := i + |bodies[0]| + 1;
      e <= |sql| && StateAt(PenOf(d), sql, e) == Out(false)
      && PenChunks(d, sql, start) == [Range(i, i + |TrimEnd(bodies[0])|)] + PenChunks(d, sql, e)
  {
    OneStatement(d, sql, start, i, bodies[0]);
  }

  lemma NextStarts(d: Dialect, sql: string, start: nat, i: nat, bodies: seq<string>)
    requires |bodies| > 1 && StartsAt(d, sql, start, i, bodies) && i + |bodies[0]| + 1 <= |sql|
    requires StateAt(PenOf(d), sql, i + |bodies[0]| + 1) == Out(false)
    ensures var e := i + |bodies[0]| + 1; StartsAt(d, sql, e, e + 2, bodies[1..])
  {
    WritesBlankLine(d, sql, i + |bodies[0]| + 1);
  }

  lemma LastEnds(d: Dialect, sql: string, start: nat, i: nat, bodies: seq<string>)
    requires |bodies| == 1 && StartsAt(d, sql, start, i, bodies)
    ensures i + |bodies[0]| + 1 == |sql| && PenChunks(d, sql, |sql|) == []
  {}

  lemma {:induction false} ScriptIsSplit(d: Dialect, sql: string, start: nat, i: nat, bodies: seq<string>)
    requires AreBodies(d, bodies) && bodies != [] && StartsAt(d, sql, start, i, bodies)
    ensures PenChunks(d, sql, start) == Places(bodies, i)
    ensures StateAt(PenOf(d), sql, |sql|) == Out(false)
    decreases |bodies|
  {
    var e := i + |bodies[0]| + 1;
    PlacesOfFirst(bodies, i);
    FirstIsSplit(d, sql, start, i, bodies);
    if |bodies| > 1 {
      NextStarts(d, sql, start, i, bodies);
      ScriptIsSplit(d, sql, e, e + 2, bodies[1..]);
    } else {
      LastEnds(d, sql, start, i, bodies);
    }
  }

  /** What comes after a statement and its semicolon. */
  function Rest(bodies: seq<string>): string
    requires bodies != []
  {
    if |bodies| == 1 then "" else "\n\n" + Script(bodies[1..])
  }

  lemma ScriptIs(bodies: seq<string>)
    requires bodies != []
    ensures Script(bodies) == bodies[0] + ";" + Rest(bodies)
  {
    var body := bodies[0];
    if |bodies| == 1 {
      assert body + ";" + "" == body + ";";
    } else {
      assert body + ";" + "\n\n" + Script(bodies[1..]) == body + ";" + ("\n\n" + Script(bodies[1..]));
    }
  }

  lemma FoundStatement(body: string, rest: string, sql: string, i: nat)
    requires FoundAt(body + ";" + rest, sql, i)
    ensures FoundAt(body, sql, i) && i + |body| < |sql| && sql[i + |body|] == ';' && FoundAt(rest, sql, i + |body| + 1)
  {
    FoundInParts(body + ";", rest, sql, i);
    FoundInParts(body, ";", sql, i);
    assert sql[i + |body| + 0] == ";"[0];
  }

  lemma FoundBlankLine(more: string, sql: string, i: nat)
    requires FoundAt("\n\n" + more, sql, i)
    ensures i + 2 <= |sql| && sql[i] == '\n' == sql[i + 1] && FoundAt(more, sql, i + 2)
  {
    var line := "\n\n";
    FoundInParts(line, more, sql, i);
    assert sql[i + 0] == line[0] && sql[i + 1] == line[1];
  }

  lemma ScriptLength(bodies: seq<string>)
    requires bodies != []
    ensures |Script(bodies)| == |bodies[0]| + if |bodies| == 1 then 1 else 3 + |Script(bodies[1..])|
  {}

  lemma {:induction false} ScriptIsLaid(bodies: seq<string>, sql: string, i: nat)
    requires FoundAt(Script(bodies), sql, i) && |sql| == i + |Script(bodies)|
    ensures Laid(sql, i, bodies)
    decreases |bodies|
  {
    if bodies != [] {
      var e := i + |bodies[0]|;
      ScriptIs(bodies);
      ScriptLength(bodies);
      FoundStatement(bodies[0], Rest(bodies), sql, i);
      if |bodies| > 1 {
        FoundBlankLine(Script(bodies[1..]), sql, e + 1);
        ScriptIsLaid(bodies[1..], sql, e + 3);
      }
    }
  }

  /** A printed script is split into its statements. */
  lemma RangesOfAScript(d: Dialect, bodies: seq<string>)
    requires AreBodies(d, bodies)
    ensures Ranges(d, Script(bodies)) == Places(bodies, 0)
  {
    var sql := Script(bodies);
    if bodies == [] {
      assert StateAt(PenOf(d), sql, 0) == Out(false);
    } else {
      ScriptIsLaid(bodies, sql, 0);
      ScriptIsSplit(d, sql, 0, 0, bodies);
    }
    RangesOfWritten(d, sql);
  }

  // ----- the printers -----

  function UpdateBodies(d: Dialect, schema: string, table: string, changes: seq<Change>): (bodies: seq<string>)
    ensures |bodies| == |changes|
    ensures forall k :: 0 <= k < |changes| ==> bodies[k] == UpdateBody(d, schema, table, changes[k])
  {
    if changes == [] then []
      else [UpdateBody(d, schema, table, changes[0])] + UpdateBodies(d, schema, table, changes[1..])
  }

  lemma {:induction false} UpdatesAreAScript(d: Dialect, schema: string, table: string, changes: seq<Change>)
    ensures |Updates(d, schema, table, changes)| == |changes|
    ensures PendingChangesToSql(d, schema, table, changes) == Script(UpdateBodies(d, schema, table, changes))
    decreases |changes|
  {
    if changes != [] {
      UpdatesAreAScript(d, schema, table, changes[1..]);
      var updates, bodies := Updates(d, schema, table, changes), UpdateBodies(d, schema, table, changes);
      assert updates[1..] == Updates(d, schema, table, changes[1..])
        && bodies[1..] == UpdateBodies(d, schema, table, changes[1..]);
    }
  }

  lemma UpdatesAreBodies(d: Dialect, schema: string, table: string, changes: seq<Change>)
    requires forall k :: 0 <= k < |changes| ==> ChangeOk(changes[k])
    ensures AreBodies(d, UpdateBodies(d, schema, table, changes))
  {
    var bodies := UpdateBodies(d, schema, table, changes);
    forall k | 0 <= k < |bodies| ensures IsBody(d, bodies[k]) {
      WritesUpdate(d, schema, table, changes[k]);
      assert bodies[k][0] == 'U';
    }
  }

  /** The range holds the statement, without the blanks at its end. */
  predicate HasText(sql: string, r: Range, body: string) {
    r.from <= r.to <= |sql| && sql[r.from..r.to] == TrimEnd(body)
  }

  predicate HaveTexts(sql: string, ranges: seq<Range>, bodies: seq<string>) {
    |ranges| == |bodies| && forall k :: 0 <= k < |ranges| ==> HasText(sql, ranges[k], bodies[k])
  }

  lemma TextFound(body: string, sql: string, i: nat)
    requires FoundAt(body, sql, i)
    ensures HasText(sql, Range(i, i + |TrimEnd(body)|), body)
  {
    assert forall k :: 0 <= k < |TrimEnd(body)| ==> sql[i + k] == body[k];
  }

  lemma OneMoreText(sql: string, r: Range, ranges: seq<Range>, bodies: seq<string>)
    requires bodies != [] && HasText(sql, r, bodies[0]) && HaveTexts(sql, ranges, bodies[1..])
    ensures HaveTexts(sql, [r] + ranges, bodies)
  {
    forall k | 0 <= k < |bodies| ensures HasText(sql, ([r] + ranges)[k], bodies[k]) {
      if k > 0 { assert bodies[k] == bodies[1..][k - 1]; }
    }
  }

  lemma {:induction false} PlacesHaveTexts(bodies: seq<string>, sql: string, i: nat)
    requires Laid(sql, i, bodies)
    ensures HaveTexts(sql, Places(bodies, i), bodies)
    decreases |bodies|
  {
    if bodies != [] {
      TextFound(bodies[0], sql, i);
      if |bodies| > 1 { PlacesHaveTexts(bodies[1..], sql, i + |bodies[0]| + 3); }
      OneMoreText(sql, Range(i, i + |TrimEnd(bodies[0])|), Places(bodies[1..], i + |bodies[0]| + 3), bodies);
    }
  }

  /**
   * Whatever the names and values are, the printed updates come back as one range for each change, which holds its
   * UPDATE.
   */
  lemma OneRangePerChange(d: Dialect, schema: string, table: string, changes: seq<Change>)
    requires forall k :: 0 <= k < |changes| ==> ChangeOk(changes[k])
    ensures var sql := PendingChangesToSql(d, schema, table, changes);
      |Ranges(d, sql)| == |changes| && HaveTexts(sql, Ranges(d, sql), UpdateBodies(d, schema, table, changes))
  {
    var bodies := UpdateBodies(d, schema, table, changes);
    UpdatesAreAScript(d, schema, table, changes);
    UpdatesAreBodies(d, schema, table, changes);
    RangesOfAScript(d, bodies);
    ScriptIsLaid(bodies, Script(bodies), 0);
    PlacesHaveTexts(bodies, Script(bodies), 0);
  }

  /** The printed INSERT comes back as one range, which holds it. */
  lemma OneRangePerInsert(d: Dialect, schema: string, table: string, columns: seq<string>, rows: seq<seq<Value>>)
    requires forall r :: r in rows ==> forall k :: 0 <= k < |r| ==> ValueOk(r[k])
    ensures var body := InsertBody(d, schema, table, columns, rows);
      Ranges(d, RowsToInsertSql(d, schema, table, columns, rows)) == [Range(0, |TrimEnd(body)|)]
  {
    var body := InsertBody(d, schema, table, columns, rows);
    WritesInsert(d, schema, table, columns, rows);
    assert body[0] == 'I';
    RangesOfAScript(d, [body]);
    assert Places([body], 0) == [Range(0, |TrimEnd(body)|)] + Places([], 0 + |body| + 3);
  }
}

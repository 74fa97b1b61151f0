/** What the ranges of a MySQL script hold, character by character. */
module MysqlCoverage {
  import opened Text
  import opened Statements
  import opened MysqlLexer
  import opened MysqlRoutines
  import opened MysqlSplitter
  import opened MysqlStatements
  import opened MysqlStates
  import opened MysqlTexts

  predicate TakesLine(sql: string, st: Statement, t: Token)
    requires t.start <= t.end <= |sql|
  {
    IsDelimiter(sql, t) && (!st.hasContent || AfterBody(sql, st, t))
  }

  /** The `DELIMITER` lines that are read from `i` on, each from its first word. */
  ghost function Lines(sql: string, i: nat, st: Statement): set<Range>
    requires i <= |sql|
    decreases |sql| - i
  {
    match NextToken(sql, i)
    case None => {}
    case Some(t) =>
      var r := Take(sql, st, t);
      (if TakesLine(sql, st, t) then {Range(t.start, r.next)} else {}) + Lines(sql, r.next, r.statement)
  }

  /** The semicolons that are read from `i` on and end a statement. */
  ghost function Separators(sql: string, i: nat, st: Statement): set<nat>
    requires i <= |sql|
    decreases |sql| - i
  {
    match NextToken(sql, i)
    case None => {}
    case Some(t) =>
      var r := Take(sql, st, t);
      (if Separates(st, t) then {t.start} else {}) + Separators(sql, r.next, r.statement)
  }

  ghost function LinesOf(sql: string): set<Range> { Lines(sql, 0, Fresh(0)) }

  ghost function SeparatorsOf(sql: string): set<nat> { Separators(sql, 0, Fresh(0)) }

  lemma {:induction false} LinesAhead(sql: string, i: nat, st: Statement, l: Range)
    requires i <= |sql| && l in Lines(sql, i, st)
    ensures NextToken(sql, i).Some? && NextToken(sql, i).value.start <= l.from < l.to <= |sql|
    decreases |sql| - i
  {
    var t := NextToken(sql, i).value;
    var r := Take(sql, st, t);
    if !TakesLine(sql, st, t) || l != Range(t.start, r.next) { LinesAhead(sql, r.next, r.statement, l); }
  }

  lemma {:induction false} SeparatorsAhead(sql: string, i: nat, st: Statement, p: nat)
    requires i <= |sql| && p in Separators(sql, i, st)
    ensures NextToken(sql, i).Some? && NextToken(sql, i).value.start <= p < |sql|
    decreases |sql| - i
  {
    var t := NextToken(sql, i).value;
    var r := Take(sql, st, t);
    if p != t.start { SeparatorsAhead(sql, r.next, r.statement, p); }
  }

  /** The splitter is at `i` and the lines that end after it are the ones it reads from there. */
  ghost predicate Underway(sql: string, lines: set<Range>, i: nat, st: Statement) {
    && ReadUpTo(sql, i, st) && FitsAt(sql, lines, i)
    && Lines(sql, i, st) <= lines
    && forall l :: l in lines && l.to > i ==> l in Lines(sql, i, st)
  }

  lemma StartsReading(sql: string)
    ensures Underway(sql, LinesOf(sql), 0, Fresh(0))
  {}

  /** The same behind a token that is taken along with the one before. */
  lemma {:induction false} FitsBehind(sql: string, lines: set<Range>, st: Statement, t: Token)
    requires t.start < t.end <= |sql| && FitsAt(sql, lines, t.end)
    requires Quiet(lines, t.end, Take(sql, st, t).next) && !TakesLine(sql, st, t)
    ensures FitsAt(sql, lines, Take(sql, st, t).next)
  {
    var next := Take(sql, st, t).next;
    if next != t.end {
      var peek := NextToken(sql, t.end).value;
      NextIsText(sql, lines, t.end);
      TokenIsText(sql, lines, peek.start);
    }
  }

  /** What comes before the next token is no text, and reading goes on behind it. */
  lemma {:induction false} ReadsOn(sql: string, lines: set<Range>, i: nat, st: Statement)
    requires Underway(sql, lines, i, st) && NextToken(sql, i).Some?
    ensures var t := NextToken(sql, i).value;
      var r := Take(sql, st, t);
      && NoText(sql, lines, i, t.start)
      && (!TakesLine(sql, st, t) ==> TokenText(sql, lines, t))
      && Underway(sql, lines, r.next, r.statement)
  {
    var t := NextToken(sql, i).value;
    var r := Take(sql, st, t);
    forall k: nat | i < k <= t.start ensures !EndsAt(lines, k) {
      if l :| l in lines && l.to == k { LinesAhead(sql, i, st, l); }
    }
    NextIsText(sql, lines, i);
    TakeReadsUpTo(sql, i, st);
    if !TakesLine(sql, st, t) {
      forall k: nat | i < k <= r.next ensures !EndsAt(lines, k) {
        if l :| l in lines && l.to == k { LinesAhead(sql, r.next, r.statement, l); }
      }
      TokenIsText(sql, lines, t.start);
      FitsBehind(sql, lines, st, t);
    }
  }

  // ----- all text is in the ranges -----

  /** A character of a token that does not separate goes into the statement, or into a range with it. */
  lemma TokenIsTaken(ranges: seq<Range>, sql: string, i: nat, st: Statement, p: nat)
    requires ReadUpTo(sql, i, st) && NextToken(sql, i).Some?
    requires var t := NextToken(sql, i).value;
      t.start <= p < Take(sql, st, t).next && VisibleAt(sql, p) && !(p == t.start && Separates(st, t))
    ensures var t := NextToken(sql, i).value;
      var r := Take(sql, st, t);
      if TakesLine(sql, st, t) then Holds(Push(ranges, sql, r.texts), p)
      else r.statement.hasContent && r.statement.start <= p
  {
    var t := NextToken(sql, i).value;
    SemiEnds(sql, i);
    if TakesLine(sql, st, t) { DelimiterKeeps(ranges, sql, i, st, t, p); }
  }

  lemma {:induction false} TextIsKept(ranges: seq<Range>, sql: string, lines: set<Range>, i: nat, st: Statement, p: nat)
    requires Underway(sql, lines, i, st) && i <= p && TextAt(sql, lines, p) && p !in Separators(sql, i, st)
    ensures Holds(Split(ranges, sql, i, st), p)
    decreases |sql| - i
  {
    match NextToken(sql, i)
    case None =>
      NothingIsLeft(sql, lines, i, st, p);
    case Some(t) =>
      var r := Take(sql, st, t);
      var pushed := Push(ranges, sql, r.texts);
      ReadsOn(sql, lines, i, st);
      if p < r.next {
        if p < t.start { NotBeforeTheToken(sql, lines, i, st, p); }
        TokenIsTaken(ranges, sql, i, st, p);
        if Holds(pushed, p) {
          SplitHolds(pushed, sql, r.next, r.statement, p);
        } else {
          ContentIsKept(pushed, sql, r.next, r.statement, p);
        }
      } else {
        TextIsKept(pushed, sql, lines, r.next, r.statement, p);
      }
  }

  /** A place before the next token is no text. */
  lemma {:induction false} NotBeforeTheToken(sql: string, lines: set<Range>, i: nat, st: Statement, p: nat)
    requires Underway(sql, lines, i, st) && NextToken(sql, i).Some? && i <= p < NextToken(sql, i).value.start
    ensures !TextAt(sql, lines, p)
  {
    ReadsOn(sql, lines, i, st);
    if l :| l in lines && Inside(l, p) { LinesAhead(sql, i, st, l); }
  }

  lemma {:induction false} NothingIsLeft(sql: string, lines: set<Range>, i: nat, st: Statement, p: nat)
    requires Underway(sql, lines, i, st) && NextToken(sql, i).None? && i <= p
    ensures !TextAt(sql, lines, p)
  {
    assert forall k: nat :: i < k <= |sql| ==> !EndsAt(lines, k);
    NextIsText(sql, lines, i);
  }

  /**
   * Every visible character outside of comments, or in a `DELIMITER` line, that does not separate is in exactly one
   * range.
   */
  lemma EveryTextIsInARange(sql: string, p: nat)
    requires TextAt(sql, LinesOf(sql), p) && p !in SeparatorsOf(sql)
    ensures HeldOnce(Split([], sql, 0, Fresh(0)), p)
  {
    StartsReading(sql);
    TextIsKept([], sql, LinesOf(sql), 0, Fresh(0), p);
    SplitIsWellSplit(sql);
    HeldInOne(sql, Split([], sql, 0, Fresh(0)), p);
  }

  // ----- where statements end -----

  lemma {:induction false} SeparatorsFromAreCode(sql: string, lines: set<Range>, i: nat, st: Statement, p: nat)
    requires Underway(sql, lines, i, st) && p in Separators(sql, i, st)
    ensures CodeSemicolon(sql, lines, p)
    decreases |sql| - i
  {
    var t := NextToken(sql, i).value;
    var r := Take(sql, st, t);
    ReadsOn(sql, lines, i, st);
    if Separates(st, t) && p == t.start {
      assert !TakesLine(sql, st, t);
    } else {
      SeparatorsFromAreCode(sql, lines, r.next, r.statement, p);
    }
  }

  /** A statement ends only at a semicolon that is neither quoted nor in a comment, not even in one that MySQL runs. */
  lemma SeparatorsAreCode(sql: string, p: nat)
    requires p in SeparatorsOf(sql)
    ensures CodeSemicolon(sql, LinesOf(sql), p)
  {
    StartsReading(sql);
    SeparatorsFromAreCode(sql, LinesOf(sql), 0, Fresh(0), p);
  }

  /** The letters of the word CREATE, in any case, wherever they are. */
  predicate SpellsCreate(sql: string, k: nat) { k + 6 <= |sql| && Upper(sql[k..k + 6]) == "CREATE" }

  lemma KeywordIsCreate(text: string)
    ensures KeywordOf(text) == CREATE ==> text == "CREATE"
  {}

  lemma WordSpellsCreate(sql: string, i: nat, e: nat)
    requires i <= e <= |sql|
    ensures WordIn(sql, i, e) == Word(CREATE) ==> SpellsCreate(sql, i)
  {
    var text := sql[i..e];
    KeywordIsCreate(Upper(text));
    if |text| == 6 { assert text == sql[i..i + 6]; }
  }

  lemma {:induction false} CreateIsSpelled(sql: string, i: nat)
    requires i <= |sql| && NextToken(sql, i).Some?
    ensures var t := NextToken(sql, i).value; t.sym == Word(CREATE) ==> SpellsCreate(sql, t.start)
    decreases |sql| - i
  {
    var gap := GapEnd(sql, i);
    if gap.Some? {
      CreateIsSpelled(sql, gap.value);
    } else if WordAt(sql, i) {
      WordSpellsCreate(sql, i, WordEnd(sql, i + 1));
    }
  }

  /** A statement that does not start with CREATE. */
  predicate NoRoutine(st: Statement) { if st.routine.None? then st.header == [] else !st.routine.value }

  lemma {:induction false} StaysNoRoutine(sql: string, st: Statement, t: Token)
    requires NoRoutine(st) && t.start < t.end <= |sql| && t.sym != Word(CREATE)
    ensures NoRoutine(Take(sql, st, t).statement)
    ensures !TakesLine(sql, st, t) ==> Take(sql, st, t).next == t.end
  {}

  lemma {:induction false} SemicolonsSeparate(sql: string, lines: set<Range>, i: nat, st: Statement, p: nat)
    requires Underway(sql, lines, i, st) && NoRoutine(st) && forall k: nat :: !SpellsCreate(sql, k)
    requires i <= p && CodeSemicolon(sql, lines, p) && !InLine(lines, p)
    ensures p in Separators(sql, i, st)
    decreases |sql| - i
  {
    if NextToken(sql, i).None? {
      assert forall k: nat :: i < k <= |sql| ==> !EndsAt(lines, k);
      NextIsText(sql, lines, i);
    } else {
      var t := NextToken(sql, i).value;
      var r := Take(sql, st, t);
      ReadsOn(sql, lines, i, st);
      CreateIsSpelled(sql, i);
      StaysNoRoutine(sql, st, t);
      SemiEnds(sql, i);
      if TakesLine(sql, st, t) { assert t.start <= p < r.next ==> Inside(Range(t.start, r.next), p); }
      if p >= r.next { SemicolonsSeparate(sql, lines, r.next, r.statement, p); }
    }
  }

  lemma {:induction false} NotInALine(sql: string, lines: set<Range>, i: nat, st: Statement, p: nat)
    requires Underway(sql, lines, i, st) && p in Separators(sql, i, st)
    ensures !InLine(lines, p)
    decreases |sql| - i
  {
    var t := NextToken(sql, i).value;
    var r := Take(sql, st, t);
    ReadsOn(sql, lines, i, st);
    if Separates(st, t) && p == t.start {
      assert !TakesLine(sql, st, t);
      if l :| l in lines && Inside(l, p) { LinesAhead(sql, r.next, r.statement, l); }
    } else {
      NotInALine(sql, lines, r.next, r.statement, p);
    }
  }

  /** A script without CREATE is cut at all semicolons that are code, and nowhere else. */
  lemma EverySemicolonSeparates(sql: string, p: nat)
    requires forall k: nat :: !SpellsCreate(sql, k)
    ensures p in SeparatorsOf(sql) <==> CodeSemicolon(sql, LinesOf(sql), p) && !InLine(LinesOf(sql), p)
  {
    StartsReading(sql);
    if p in SeparatorsOf(sql) {
      SeparatorsAreCode(sql, p);
      NotInALine(sql, LinesOf(sql), 0, Fresh(0), p);
    } else if CodeSemicolon(sql, LinesOf(sql), p) && !InLine(LinesOf(sql), p) {
      SemicolonsSeparate(sql, LinesOf(sql), 0, Fresh(0), p);
    }
  }

  // ----- every range holds text -----

  ghost predicate HasTextIn(sql: string, lines: set<Range>, lo: nat, hi: nat) {
    exists p :: lo <= p < hi && TextAt(sql, lines, p)
  }

  ghost predicate AllHaveText(sql: string, lines: set<Range>, ranges: seq<Range>) {
    forall k :: 0 <= k < |ranges| ==> HasTextIn(sql, lines, ranges[k].from, ranges[k].to)
  }

  lemma AddHasText(sql: string, lines: set<Range>, ranges: seq<Range>, lo: nat, hi: nat)
    requires AllHaveText(sql, lines, ranges) && HasTextIn(sql, lines, lo, hi) && hi <= |sql|
    ensures AllHaveText(sql, lines, Add(ranges, Trim(sql, lo, hi)))
  {
    var p :| lo <= p < hi && TextAt(sql, lines, p);
    TrimHolds(sql, lo, hi, p);
  }

  lemma {:induction false} TokenStartIsText(sql: string, lines: set<Range>, i: nat, st: Statement)
    requires Underway(sql, lines, i, st) && NextToken(sql, i).Some?
    ensures TextAt(sql, lines, NextToken(sql, i).value.start)
  {
    var t := NextToken(sql, i).value;
    ReadsOn(sql, lines, i, st);
    TokenStartsWithText(sql, i);
    if TakesLine(sql, st, t) { assert Inside(Range(t.start, Take(sql, st, t).next), t.start); }
  }

  lemma {:induction false} PushHasText(ranges: seq<Range>, sql: string, lines: set<Range>, i: nat, st: Statement)
    requires Underway(sql, lines, i, st) && NextToken(sql, i).Some? && AllHaveText(sql, lines, ranges)
    requires st.hasContent ==> HasTextIn(sql, lines, st.start, i)
    ensures var r := Take(sql, st, NextToken(sql, i).value);
      && AllHaveText(sql, lines, Push(ranges, sql, r.texts))
      && (r.statement.hasContent ==> HasTextIn(sql, lines, r.statement.start, r.next))
  {
    var t := NextToken(sql, i).value;
    var r := Take(sql, st, t);
    TokenStartIsText(sql, lines, i, st);
    if st.hasContent { assert HasTextIn(sql, lines, st.start, t.start); }
    if t.sym == Semi {
      PushOne(ranges, sql, (st.start, t.start));
      if st.hasContent && !InBody(st) { AddHasText(sql, lines, ranges, st.start, t.start); }
    } else if TakesLine(sql, st, t) {
      LineHasText(ranges, sql, lines, i, st, t);
    } else {
      assert HasTextIn(sql, lines, st.start, r.next);
    }
  }

  lemma LineHasText(ranges: seq<Range>, sql: string, lines: set<Range>, i: nat, st: Statement, t: Token)
    requires ReadUpTo(sql, i, st) && i <= t.start < t.end <= |sql| && AllHaveText(sql, lines, ranges)
    requires st.hasContent ==> HasTextIn(sql, lines, st.start, i)
    requires TakesLine(sql, st, t) && TextAt(sql, lines, t.start)
    ensures AllHaveText(sql, lines, Push(ranges, sql, TakeDelimiter(sql, st, t).texts))
  {
    var end, line := LineEnd(sql, t.end), LineStart(sql, t.start);
    if st.hasContent {
      var p :| st.start <= p < i && TextAt(sql, lines, p);
      LineStartFacts(sql, t.start, p);
      PushTwo(ranges, sql, (st.start, line), (line, end));
      AddHasText(sql, lines, ranges, st.start, line);
      AddHasText(sql, lines, Add(ranges, Trim(sql, st.start, line)), line, end);
    } else {
      PushOne(ranges, sql, (st.start, end));
      AddHasText(sql, lines, ranges, st.start, end);
    }
  }

  lemma {:induction false} SplitHasText(ranges: seq<Range>, sql: string, lines: set<Range>, i: nat, st: Statement)
    requires Underway(sql, lines, i, st) && AllHaveText(sql, lines, ranges)
    requires st.hasContent ==> HasTextIn(sql, lines, st.start, i)
    ensures AllHaveText(sql, lines, Split(ranges, sql, i, st))
    decreases |sql| - i
  {
    match NextToken(sql, i)
    case None =>
      if st.hasContent {
        assert HasTextIn(sql, lines, st.start, |sql|);
        AddHasText(sql, lines, ranges, st.start, |sql|);
      }
    case Some(t) =>
      var r := Take(sql, st, t);
      ReadsOn(sql, lines, i, st);
      PushHasText(ranges, sql, lines, i, st);
      SplitHasText(Push(ranges, sql, r.texts), sql, lines, r.next, r.statement);
  }

  /** No range has only blanks and comments. */
  lemma EveryRangeHasText(sql: string)
    ensures AllHaveText(sql, LinesOf(sql), Split([], sql, 0, Fresh(0)))
  {
    StartsReading(sql);
    SplitHasText([], sql, LinesOf(sql), 0, Fresh(0));
  }

  // ----- comments that MySQL runs, and comments before a statement -----

  /** A script of one token, with a semicolon after it or without. */
  lemma {:induction false} OneToken(sql: string, t: Token)
    requires NextToken(sql, 0) == Some(t) && t.sym != Semi && t.sym != Word(CREATE) && t.sym != Word(DELIMITER)
    requires !IsSpace(sql[0]) && !IsSpace(sql[t.end - 1])
    requires t.end == |sql| || (t.end + 1 == |sql| && sql[t.end] == ';')
    ensures Split([], sql, 0, Fresh(0)) == [Range(0, t.end)]
  {
    var r := Take(sql, Fresh(0), t);
    assert r.next == t.end && r.statement.hasContent && r.statement.start == 0 && !InBody(r.statement);
    assert Split([], sql, 0, Fresh(0)) == Split([], sql, t.end, r.statement);
    assert Trim(sql, 0, t.end) == Some(Range(0, t.end));
    if t.end < |sql| {
      MarksAreVisible();
      var semi := Token(Semi, t.end, t.end + 1);
      assert NextToken(sql, t.end) == Some(semi);
      PushOne([], sql, (0, t.end));
      var last := Take(sql, r.statement, semi);
      assert NextToken(sql, t.end + 1).None? && last.next == t.end + 1 && !last.statement.hasContent;
      assert Split([], sql, t.end, r.statement) == Split([Range(0, t.end)], sql, t.end + 1, last.statement);
    } else {
      assert NextToken(sql, t.end).None?;
    }
  }

  /** A comment that MySQL runs is a statement, whatever is in it. */
  lemma {:induction false} RunCommentIsAStatement(s: string)
    requires !Contains(s, "*/")
    ensures var sql := "/*!" + s + "*/;";
      Split([], sql, 0, Fresh(0)) == [Range(0, |sql| - 1)]
  {
    var sql := "/*!" + s + "*/;";
    var n := |s| + 3;
    MatchTwo(sql, "*/", n);
    forall k: nat | 2 <= k < n ensures !MatchAt(sql, "*/", k) {
      MatchTwo(sql, "*/", k);
      if k >= 3 { MatchTwo(s, "*/", k - 3); }
    }
    IndexOfIs(sql, "*/", 2, n);
    MarksAreVisible();
    assert sql[n + 1] == '/';
    OneToken(sql, Token(Versioned, 0, n + 2));
  }

  lemma ShortTextIsNoKeyword(text: string)
    requires |text| == 1
    ensures KeywordOf(text) == OTHER
  {}

  /** A comment before a statement belongs to its range: ranges can start in a comment. */
  lemma {:induction false} CommentBeforeIsInTheRange(s: string)
    requires forall k :: 0 <= k < |s| ==> s[k] != '\n'
    ensures var sql := "#" + s + "\n1";
      Split([], sql, 0, Fresh(0)) == [Range(0, |sql|)]
  {
    var sql := "#" + s + "\n1";
    var n := |s| + 1;
    MarksAreVisible();
    CommonSpaces();
    NotSpace('1');
    NoLineFeedBeforeLineEnd(sql, 0);
    forall k | 0 < k < n ensures sql[k] != '\n' { assert sql[k] == s[k - 1]; }
    assert sql[n] == '\n' && sql[n + 1] == '1' && LineEnd(sql, 0) == n;
    ShortTextIsNoKeyword(Upper(sql[n + 1..n + 2]));
    assert NextToken(sql, n + 1) == Some(Token(Word(OTHER), n + 1, n + 2));
    OneToken(sql, Token(Word(OTHER), n + 1, n + 2));
  }

  lemma DelimiterIsRead(sql: string)
    requires MatchAt(sql, "DELIMITER ", 0)
    ensures NextToken(sql, 0) == Some(Token(Word(DELIMITER), 0, 9))
  {
    var word := "DELIMITER";
    forall k | 0 <= k < 9 ensures sql[k] == word[k] && WordChar(sql[k]) && sql[k] != '$' {
      assert sql[0 + k] == "DELIMITER "[k];
    }
    assert sql[0 + 9] == "DELIMITER "[9];
    NotSpace('D');
    WordEndIs(sql, 1, 9);
    assert sql[0..9] == word && Upper(word) == word;
  }

  lemma {:induction false} WordEndIs(sql: string, i: nat, e: nat)
    requires i <= e < |sql| && sql[e] == ' '
    requires forall k :: i <= k < e ==> WordChar(sql[k]) && sql[k] != '$'
    ensures WordEnd(sql, i) == e
    decreases e - i
  {
    if i < e { WordEndIs(sql, i + 1, e); }
  }

  lemma {:induction false} StartsWithALine(sql: string, end: nat, r: Range)
    requires NextToken(sql, 0) == Some(Token(Word(DELIMITER), 0, 9)) && 9 < |sql| && IsSpace(sql[9])
    requires end == LineEnd(sql, 9) && Trim(sql, 0, end) == Some(r)
    ensures Split([], sql, 0, Fresh(0)) == Split([r], sql, end, Fresh(end))
  {
    var t := Token(Word(DELIMITER), 0, 9);
    assert Take(sql, Fresh(0), t) == Reading(Fresh(end), end, [(0, end)]);
    PushOne([], sql, (0, end));
    assert Push([], sql, [(0, end)]) == [r];
    assert Split([], sql, 0, Fresh(0)) == Split(Push([], sql, [(0, end)]), sql, end, Fresh(end));
  }

  /** A `DELIMITER` line is a statement up to its end, whatever is in it, and the next statement starts there. */
  lemma {:induction false} DelimiterLineIsAStatement(s: string, rest: string)
    requires forall k :: 0 <= k < |s| ==> s[k] != '\n'
    ensures var sql := "DELIMITER " + s + "\n" + rest;
      var end := 10 + |s|;
      Split([], sql, 0, Fresh(0)) == Split([Range(0, BackSpaces(sql, 0, end))], sql, end, Fresh(end))
  {
    var line := "DELIMITER " + s;
    var sql := line + "\n" + rest;
    var end := 10 + |s|;
    DelimiterIsRead(sql);
    CommonSpaces();
    NotSpace('D');
    NoLineFeedBeforeLineEnd(sql, 9);
    forall k | 9 <= k < end ensures sql[k] == line[k] != '\n' {}
    assert sql[0] == line[0] == 'D' && sql[9] == line[9] == ' ';
    assert sql[end] == '\n' && LineEnd(sql, 9) == end;
    TrimHolds(sql, 0, end, 0);
    StartsWithALine(sql, end, Range(0, BackSpaces(sql, 0, end)));
  }
}

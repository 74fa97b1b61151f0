/** What the ranges of a MySQL script are. */
module MysqlStatements {
  import opened Text
  import opened Statements
  import opened MysqlLexer
  import opened MysqlRoutines
  import opened MysqlSplitter

  /** What is trimmed from `start` on starts after all of `ranges`. */
  ghost predicate Clear(sql: string, ranges: seq<Range>, start: nat) {
    forall k :: 0 <= k < |ranges| ==>
      ranges[k].to < start || (ranges[k].to == start && (start >= |sql| || IsSpace(sql[start])))
  }

  lemma AddAfter(sql: string, ranges: seq<Range>, lo: nat, hi: nat)
    requires WellSplit(sql, ranges) && Clear(sql, ranges, lo)
    ensures WellSplit(sql, Add(ranges, Trim(sql, lo, hi)))
    ensures lo <= hi ==> Clear(sql, Add(ranges, Trim(sql, lo, hi)), hi + 1)
  {
    var piece := Trim(sql, lo, hi);
    if piece.Some? {
      PieceTrimmed(sql, lo, hi, KeepAll);
      var more := ranges + [piece.value];
      forall j, k | 0 <= j < k < |more| ensures more[j].to < more[k].from {
        if k == |ranges| { assert more[j] == ranges[j]; }
      }
    }
  }

  /** There is text from `start` on before `i`. */
  ghost predicate HasTextBefore(sql: string, start: nat, i: nat) {
    exists p :: start <= p < i <= |sql| && !IsSpace(sql[p])
  }

  /** What holds of a statement that has been read up to `i`. */
  ghost predicate ReadUpTo(sql: string, i: nat, st: Statement) {
    st.start <= i <= |sql| && (st.hasContent ==> HasTextBefore(sql, st.start, i))
      && (st.routine.Some? ==> st.hasContent)
  }

  lemma TakeReadsUpTo(sql: string, i: nat, st: Statement)
    requires ReadUpTo(sql, i, st) && NextToken(sql, i).Some?
    ensures var r := Take(sql, st, NextToken(sql, i).value); ReadUpTo(sql, r.next, r.statement)
  {
    var t := NextToken(sql, i).value;
    var r := Take(sql, st, t);
    TokenStartsWithText(sql, i);
    if r.statement.hasContent { assert r.statement.start <= t.start < r.next; }
  }

  lemma {:induction false} LineStartFacts(sql: string, i: nat, p: nat)
    requires i <= |sql|
    ensures var line := LineStart(sql, i); line > 0 ==> sql[line - 1] == '\n'
    ensures p < i && !IsSpace(sql[p]) && SkipSpaces(sql, LineStart(sql, i), i) == i ==> p < LineStart(sql, i)
  {
    LineStartsAfterLineFeed(sql, i);
    var line := LineStart(sql, i);
    if line <= p < SkipSpaces(sql, line, i) { SkipsBlanks(sql, line, i, p); }
  }

  lemma {:induction false} LineStartsAfterLineFeed(sql: string, i: nat)
    requires i <= |sql|
    ensures var line := LineStart(sql, i); line > 0 ==> sql[line - 1] == '\n'
  {
    if i > 0 && sql[i - 1] != '\n' { LineStartsAfterLineFeed(sql, i - 1); }
  }

  /** A blank at the end does not change what is trimmed. */
  lemma TrimDropsBlank(sql: string, lo: nat, hi: nat)
    requires lo < hi <= |sql| && IsSpace(sql[hi - 1])
    ensures Trim(sql, lo, hi).Some? ==> Trim(sql, lo, hi).value.to < hi
  {}

  lemma SemiStaysWellSplit(ranges: seq<Range>, sql: string, st: Statement, t: Token)
    requires WellSplit(sql, ranges) && Clear(sql, ranges, st.start) && st.start <= t.start < |sql|
    requires t.end == t.start + 1
    ensures var r := TakeSemi(sql, st, t);
      WellSplit(sql, Push(ranges, sql, r.texts)) && Clear(sql, Push(ranges, sql, r.texts), r.statement.start)
  {
    PushOne(ranges, sql, (st.start, t.start));
    AddAfter(sql, ranges, st.start, t.start);
  }

  /** The texts that end with a token keep the ranges well split. */
  lemma PushStaysWellSplit(ranges: seq<Range>, sql: string, i: nat, st: Statement, t: Token, r: Reading)
    requires WellSplit(sql, ranges) && Clear(sql, ranges, st.start) && ReadUpTo(sql, i, st)
    requires NextToken(sql, i) == Some(t) && r == Take(sql, st, t)
    ensures WellSplit(sql, Push(ranges, sql, r.texts)) && Clear(sql, Push(ranges, sql, r.texts), r.statement.start)
  {
    if t.sym == Semi {
      SemiEnds(sql, i);
      SemiStaysWellSplit(ranges, sql, st, t);
    } else if IsDelimiter(sql, t) && (!st.hasContent || AfterBody(sql, st, t)) {
      DelimiterStaysWellSplit(ranges, sql, i, st, t);
    } else {
      assert r.texts == [] && r.statement.start == st.start;
    }
  }

  lemma {:induction false} SemiEnds(sql: string, i: nat)
    requires i <= |sql| && NextToken(sql, i).Some?
    ensures var t := NextToken(sql, i).value; t.sym == Semi ==> t.end == t.start + 1 && sql[t.start] == ';'
    decreases |sql| - i
  {
    var gap := GapEnd(sql, i);
    if gap.Some? { SemiEnds(sql, gap.value); }
  }

  lemma DelimiterStaysWellSplit(ranges: seq<Range>, sql: string, i: nat, st: Statement, t: Token)
    requires WellSplit(sql, ranges) && Clear(sql, ranges, st.start) && ReadUpTo(sql, i, st)
    requires i <= t.start < t.end <= |sql|
    requires !st.hasContent || AfterBody(sql, st, t)
    ensures var r := TakeDelimiter(sql, st, t);
      WellSplit(sql, Push(ranges, sql, r.texts)) && Clear(sql, Push(ranges, sql, r.texts), r.statement.start)
  {
    var end := LineEnd(sql, t.end);
    var line := LineStart(sql, t.start);
    CommonSpaces();
    if !st.hasContent {
      PushOne(ranges, sql, (st.start, end));
      AddAfter(sql, ranges, st.start, end);
      ClearAtLineEnd(sql, Add(ranges, Trim(sql, st.start, end)), end);
    } else {
      var p :| st.start <= p < i <= |sql| && !IsSpace(sql[p]);
      LineStartFacts(sql, t.start, p);
      TrimDropsBlank(sql, st.start, line);
      AddAfter(sql, ranges, st.start, line);
      var first := Add(ranges, Trim(sql, st.start, line));
      assert Clear(sql, first, line);
      AddAfter(sql, first, line, end);
      ClearAtLineEnd(sql, Add(first, Trim(sql, line, end)), end);
      PushTwo(ranges, sql, (st.start, line), (line, end));
    }
  }

  lemma ClearAtLineEnd(sql: string, ranges: seq<Range>, end: nat)
    requires WellSplit(sql, ranges) && Clear(sql, ranges, end + 1) && end <= |sql|
    requires (end < |sql| ==> IsSpace(sql[end]))
    ensures Clear(sql, ranges, end)
  {
    forall k | 0 <= k < |ranges| ensures ranges[k].to <= end {
      assert ranges[k].to <= |sql| && !IsSpace(sql[ranges[k].to - 1]);
    }
  }

  lemma {:induction false} SplitStaysWellSplit(ranges: seq<Range>, sql: string, i: nat, st: Statement)
    requires WellSplit(sql, ranges) && Clear(sql, ranges, st.start) && ReadUpTo(sql, i, st)
    ensures WellSplit(sql, Split(ranges, sql, i, st))
    decreases |sql| - i
  {
    match NextToken(sql, i)
    case None => AddAfter(sql, ranges, st.start, |sql|);
    case Some(t) =>
      var r := Take(sql, st, t);
      PushStaysWellSplit(ranges, sql, i, st, t, r);
      TakeReadsUpTo(sql, i, st);
      SplitStaysWellSplit(Push(ranges, sql, r.texts), sql, r.next, r.statement);
  }

  /** The ranges of a script are in bounds, not empty, trimmed, in order and apart. */
  lemma SplitIsWellSplit(sql: string)
    ensures WellSplit(sql, Split([], sql, 0, Fresh(0)))
  {
    SplitStaysWellSplit([], sql, 0, Fresh(0));
  }

  // ----- no token is lost -----

  lemma AddHolds(ranges: seq<Range>, piece: Option<Range>, p: nat)
    requires Holds(ranges, p) || (piece.Some? && piece.value.from <= p < piece.value.to)
    ensures Holds(Add(ranges, piece), p)
  {
    var more := Add(ranges, piece);
    if Holds(ranges, p) {
      var k :| 0 <= k < |ranges| && ranges[k].from <= p < ranges[k].to;
      assert more[k] == ranges[k];
    } else {
      assert more[|ranges|] == piece.value;
    }
  }

  lemma {:induction false} PushHolds(ranges: seq<Range>, sql: string, texts: seq<(nat, nat)>, p: nat)
    requires Holds(ranges, p)
    ensures Holds(Push(ranges, sql, texts), p)
    decreases |texts|
  {
    if texts != [] {
      var piece := Trim(sql, texts[0].0, texts[0].1);
      AddHolds(ranges, piece, p);
      PushHolds(Add(ranges, piece), sql, texts[1..], p);
    }
  }

  lemma {:induction false} SplitHolds(ranges: seq<Range>, sql: string, i: nat, st: Statement, p: nat)
    requires i <= |sql| && Holds(ranges, p)
    ensures Holds(Split(ranges, sql, i, st), p)
    decreases |sql| - i
  {
    match NextToken(sql, i)
    case None => AddHolds(ranges, Trim(sql, st.start, |sql|), p);
    case Some(t) =>
      var r := Take(sql, st, t);
      PushHolds(ranges, sql, r.texts, p);
      SplitHolds(Push(ranges, sql, r.texts), sql, r.next, r.statement, p);
  }

  /** What is trimmed keeps every character that is not blank. */
  lemma TrimHolds(sql: string, lo: nat, hi: nat, p: nat)
    requires lo <= p < hi <= |sql| && !IsSpace(sql[p])
    ensures Trim(sql, lo, hi).Some? && Trim(sql, lo, hi).value.from <= p < Trim(sql, lo, hi).value.to
  {
    var f := SkipSpaces(sql, lo, hi);
    if p < f { SkipsBlanks(sql, lo, hi, p); }
    if BackSpaces(sql, f, hi) <= p { BacksBlanks(sql, f, hi, p); }
  }

  /** A semicolon that separates, or one that ends a statement with nothing in it. */
  predicate Separates(st: Statement, t: Token) { t.sym == Semi && !InBody(st) }

  /** What a token does to a character of its statement: it stays in the statement, or it goes into a range. */
  lemma TakeKeeps(ranges: seq<Range>, sql: string, i: nat, st: Statement, p: nat)
    requires ReadUpTo(sql, i, st) && NextToken(sql, i).Some?
    requires var t := NextToken(sql, i).value;
      p < |sql| && !IsSpace(sql[p]) && st.start <= p
        && ((p < i && st.hasContent) || (p == t.start && !Separates(st, t)))
    ensures var r := Take(sql, st, NextToken(sql, i).value);
      (r.statement.hasContent && r.statement.start <= p < r.next) || Holds(Push(ranges, sql, r.texts), p)
  {
    var t := NextToken(sql, i).value;
    var r := Take(sql, st, t);
    if t.sym == Semi {
      if !InBody(st) {
        PushOne(ranges, sql, (st.start, t.start));
        TrimHolds(sql, st.start, t.start, p);
        AddHolds(ranges, Trim(sql, st.start, t.start), p);
      }
    } else if IsDelimiter(sql, t) && (!st.hasContent || AfterBody(sql, st, t)) {
      DelimiterKeeps(ranges, sql, i, st, t, p);
    }
  }

  lemma DelimiterKeeps(ranges: seq<Range>, sql: string, i: nat, st: Statement, t: Token, p: nat)
    requires ReadUpTo(sql, i, st) && i <= t.start < t.end <= |sql|
    requires st.start <= p < LineEnd(sql, t.end) && !IsSpace(sql[p]) && (!st.hasContent || AfterBody(sql, st, t))
    ensures Holds(Push(ranges, sql, TakeDelimiter(sql, st, t).texts), p)
  {
    var end := LineEnd(sql, t.end);
    var line := LineStart(sql, t.start);
    if !st.hasContent {
      PushOne(ranges, sql, (st.start, end));
      TrimHolds(sql, st.start, end, p);
      AddHolds(ranges, Trim(sql, st.start, end), p);
    } else {
      PushTwo(ranges, sql, (st.start, line), (line, end));
      var first := Add(ranges, Trim(sql, st.start, line));
      if p < line {
        TrimHolds(sql, st.start, line, p);
        AddHolds(ranges, Trim(sql, st.start, line), p);
      } else {
        TrimHolds(sql, line, end, p);
      }
      AddHolds(first, Trim(sql, line, end), p);
    }
  }

  /** A character of the statement being read ends in a range. */
  lemma {:induction false} ContentIsKept(ranges: seq<Range>, sql: string, i: nat, st: Statement, p: nat)
    requires ReadUpTo(sql, i, st) && st.hasContent && st.start <= p < i && !IsSpace(sql[p])
    ensures Holds(Split(ranges, sql, i, st), p)
    decreases |sql| - i
  {
    match NextToken(sql, i)
    case None =>
      TrimHolds(sql, st.start, |sql|, p);
      AddHolds(ranges, Trim(sql, st.start, |sql|), p);
    case Some(t) =>
      var r := Take(sql, st, t);
      TakeReadsUpTo(sql, i, st);
      TakeKeeps(ranges, sql, i, st, p);
      if Holds(Push(ranges, sql, r.texts), p) {
        SplitHolds(Push(ranges, sql, r.texts), sql, r.next, r.statement, p);
      } else {
        ContentIsKept(Push(ranges, sql, r.texts), sql, r.next, r.statement, p);
      }
  }

  /** Reading from `i` comes to a token at `p` that does not separate. */
  ghost predicate ReadsTokenAt(sql: string, i: nat, st: Statement, p: nat)
    requires i <= |sql|
    decreases |sql| - i
  {
    match NextToken(sql, i)
    case None => false
    case Some(t) =>
      (t.start == p && !Separates(st, t)) || (var r := Take(sql, st, t); ReadsTokenAt(sql, r.next, r.statement, p))
  }

  lemma {:induction false} TokenIsKept(ranges: seq<Range>, sql: string, i: nat, st: Statement, p: nat)
    requires ReadUpTo(sql, i, st) && ReadsTokenAt(sql, i, st, p)
    ensures Holds(Split(ranges, sql, i, st), p)
    decreases |sql| - i
  {
    var t := NextToken(sql, i).value;
    var r := Take(sql, st, t);
    TakeReadsUpTo(sql, i, st);
    if t.start == p && !Separates(st, t) {
      TokenStartsWithText(sql, i);
      TakeKeeps(ranges, sql, i, st, p);
      if Holds(Push(ranges, sql, r.texts), p) {
        SplitHolds(Push(ranges, sql, r.texts), sql, r.next, r.statement, p);
      } else {
        ContentIsKept(Push(ranges, sql, r.texts), sql, r.next, r.statement, p);
      }
    } else {
      TokenIsKept(Push(ranges, sql, r.texts), sql, r.next, r.statement, p);
    }
  }

  /** No token is lost: every token that is read and does not separate statements starts inside exactly one range. */
  lemma EveryTokenIsInARange(sql: string, p: nat)
    requires ReadsTokenAt(sql, 0, Fresh(0), p)
    ensures HeldOnce(Split([], sql, 0, Fresh(0)), p)
  {
    TokenIsKept([], sql, 0, Fresh(0), p);
    SplitIsWellSplit(sql);
    HeldInOne(sql, Split([], sql, 0, Fresh(0)), p);
  }
}

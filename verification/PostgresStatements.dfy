/** What the ranges of a PostgreSQL script are. */
module PostgresStatements {
  import opened Text
  import opened Statements
  import opened Automata
  import opened PostgresLexer
  import opened PostgresSplitter

  /** The ranges are the pieces between consecutive semicolons that are code, and they are well split. */
  lemma RangesLieBetweenCuts(sql: string, r: Range)
    ensures WellSplit(sql, SplitAtCode(sql))
    ensures r in SplitAtCode(sql) <==>
      exists lo, hi ::
        BetweenCuts(sql, Cuts(Postgres(), sql), lo, hi) && Piece(sql, lo, hi, HasStatementText) == Some(r)
  {
    SplitAtIsWellSplit(sql, Cuts(Postgres(), sql), HasStatementText);
    SplitAtIsThePieces(sql, Cuts(Postgres(), sql), HasStatementText, r);
  }

  /** What holds of every state the automaton gets to. */
  ghost predicate Sound(s: Lex) {
    && (s.Quoted? || s.Escaped? || s.MaybeClosed? ==> s.quote == '\'' || s.quote == '"')
    && (InBlock(s) ==> 1 <= s.depth)
  }

  lemma {:induction false} StatesAreSound(sql: string, i: nat)
    requires i <= |sql|
    ensures Sound(StateAt(Postgres(), sql, i))
  {
    if i > 0 {
      StatesAreSound(sql, i - 1);
      StepKeepsSound(StateAt(Postgres(), sql, i - 1), sql[i - 1]);
    }
  }

  lemma StepKeepsSound(s: Lex, c: char)
    requires Sound(s)
    ensures Sound(Step(s, c))
  {}

  lemma SemicolonInCode(s: Lex)
    requires InCode(s) && Sound(s)
    ensures Step(s, ';') == START
  {}

  /** Splitting composes over a first script that ends in code. */
  lemma SplitComposes(a: string, b: string)
    requires InCode(StateAt(Postgres(), a, |a|))
    ensures SplitAtCode(a + ";" + b) == SplitAtCode(a) + Shift(SplitAtCode(b), |a| + 1)
  {
    StatesAreSound(a, |a|);
    SemicolonInCode(StateAt(Postgres(), a, |a|));
    SplitOfConcat(Postgres(), a, b, HasStatementText);
  }

  // ----- which statements are dropped -----

  /** A character that is blank or belongs to a comment, or may. */
  predicate CommentStep(s: Lex, c: char) {
    match s
    case Code(_) => IsSpace(c) || c == '-' || c == '/'
    case Dash => c == '-'
    case Slash => c == '*'
    case _ => s.Line? || InBlock(s)
  }

  predicate InBlock(s: Lex) { s.Block? || s.BlockSlash? || s.BlockStar? }

  ghost predicate CommentAt(t: string, k: nat)
    requires k < |t|
  {
    CommentStep(StateAt(Postgres(), t, k), t[k])
  }

  ghost predicate EndsInCode(t: string) { !StateAt(Postgres(), t, |t|).Dash? && !StateAt(Postgres(), t, |t|).Slash? }

  /** Nothing from `i` on but blanks and comments. */
  ghost predicate OnlyComments(t: string, i: nat) {
    (forall k: nat :: i <= k < |t| ==> CommentAt(t, k)) && EndsInCode(t)
  }

  ghost predicate FlatAt(t: string, k: nat)
    requires k <= |t|
  {
    InBlock(StateAt(Postgres(), t, k)) ==> StateAt(Postgres(), t, k).depth <= 1
  }

  /** No block comment has another inside. */
  ghost predicate Flat(t: string) { forall k: nat :: k <= |t| ==> FlatAt(t, k) }

  ghost predicate Unclosed(t: string) { InBlock(StateAt(Postgres(), t, |t|)) }

  lemma OneStep(t: string, i: nat, s: Lex, u: Lex)
    requires i < |t| && StateAt(Postgres(), t, i) == s && u == Step(s, t[i])
    ensures StateAt(Postgres(), t, i + 1) == u
  {}

  lemma {:induction false} LineCommentStates(t: string, i: nat, end: nat)
    requires i <= end <= |t| && StateAt(Postgres(), t, i) == Line && forall k :: i <= k < end ==> t[k] != '\n'
    ensures StateAt(Postgres(), t, end) == Line
    ensures forall k: nat :: i <= k < end ==> CommentAt(t, k)
    decreases end - i
  {
    if i < end {
      OneStep(t, i, Line, Line);
      LineCommentStates(t, i + 1, end);
      assert CommentAt(t, i);
    }
  }

  /** In a flat text a block comment goes on up to the first closing mark. */
  lemma {:induction false} BlockCommentStates(t: string, body: nat, i: nat, s: Lex, end: nat) returns (u: Lex)
    requires Flat(t) && body <= i <= end <= |t| && StateAt(Postgres(), t, i) == s && InBlock(s)
    requires s.BlockStar? ==> body < i && t[i - 1] == '*'
    requires forall k: nat :: body <= k && k + 2 <= end ==> !MatchAt(t, "*/", k)
    ensures StateAt(Postgres(), t, end) == u && InBlock(u)
    ensures forall k: nat :: i <= k < end ==> CommentAt(t, k)
    ensures i < end && t[end - 1] == '*' ==> u == BlockStar(1)
    decreases end - i
  {
    u := s;
    if i < end {
      StatesAreSound(t, i);
      if s.BlockStar? { MatchTwo(t, "*/", i - 1); }
      var next := Step(s, t[i]);
      OneStep(t, i, s, next);
      assert FlatAt(t, i) && FlatAt(t, i + 1);
      u := BlockCommentStates(t, body, i + 1, next, end);
      assert CommentAt(t, i);
    }
  }

  lemma OnlyCommentsFrom(t: string, i: nat, j: nat)
    requires i <= j <= |t| && forall k: nat :: i <= k < j ==> CommentAt(t, k)
    ensures OnlyComments(t, i) <==> OnlyComments(t, j)
  {}

  /**
   * For a text whose block comments do not nest, the test that drops a statement is exact: it keeps every
   * text that is more than comments, and of those that are only comments the ones that are not closed.
   */
  lemma {:induction false} KeptWhenFlat(t: string, i: nat)
    requires Flat(t) && i <= |t| && StateAt(Postgres(), t, i) == START
    ensures HasTextFrom(t, i) <==> !OnlyComments(t, i) || Unclosed(t)
    decreases |t| - i, 1
  {
    if i < |t| {
      if MatchAt(t, "--", i) {
        KeptAfterLineComment(t, i);
      } else if MatchAt(t, "/*", i) {
        KeptAfterBlockComment(t, i);
      } else if IsSpace(t[i]) {
        BlankIsComment(t, i);
        KeptWhenFlat(t, i + 1);
      } else {
        NotOnlyComments(t, i);
      }
    }
  }

  lemma BlankIsComment(t: string, i: nat)
    requires i < |t| && StateAt(Postgres(), t, i) == START && IsSpace(t[i])
    ensures StateAt(Postgres(), t, i + 1) == START
    ensures OnlyComments(t, i) <==> OnlyComments(t, i + 1)
  {
    BlankKeepsStart(t[i]);
    OneStep(t, i, START, START);
    assert CommentAt(t, i);
    OnlyCommentsFrom(t, i, i + 1);
  }

  lemma BlankKeepsStart(c: char)
    requires IsSpace(c)
    ensures Step(START, c) == START
  {
    if '!' <= c <= '~' { NotSpace(c); }
  }

  lemma LineCommentIsComment(t: string, i: nat, end: nat)
    requires i <= |t| && StateAt(Postgres(), t, i) == START && MatchAt(t, "--", i) && end == LineEnd(t, i + 2)
    ensures StateAt(Postgres(), t, end) == Line
    ensures forall k: nat :: i <= k < end ==> CommentAt(t, k)
  {
    MatchTwo(t, "--", i);
    OneStep(t, i, START, Dash);
    OneStep(t, i + 1, Dash, Line);
    NoLineFeedBeforeLineEnd(t, i + 2);
    LineCommentStates(t, i + 2, end);
    assert CommentAt(t, i) && CommentAt(t, i + 1);
  }

  lemma {:induction false} KeptAfterLineComment(t: string, i: nat)
    requires Flat(t) && i <= |t| && StateAt(Postgres(), t, i) == START && MatchAt(t, "--", i)
    ensures HasTextFrom(t, i) <==> !OnlyComments(t, i) || Unclosed(t)
    decreases |t| - i, 0
  {
    var end := LineEnd(t, i + 2);
    HasTextAfterLineComment(t, i);
    LineCommentIsComment(t, i, end);
    OnlyCommentsFrom(t, i, end);
    if end < |t| {
      OneStep(t, end, Line, START);
      assert CommentAt(t, end);
      OnlyCommentsFrom(t, end, end + 1);
      KeptWhenFlat(t, end + 1);
    }
  }

  lemma BlockCommentOpens(t: string, i: nat)
    requires i <= |t| && StateAt(Postgres(), t, i) == START && MatchAt(t, "/*", i)
    ensures StateAt(Postgres(), t, i + 2) == Block(1) && CommentAt(t, i) && CommentAt(t, i + 1)
  {
    MatchTwo(t, "/*", i);
    OneStep(t, i, START, Slash);
    OneStep(t, i + 1, Slash, Block(1));
  }

  /** A block comment of a flat text goes up to its closing mark, or to the end of the text. */
  lemma BlockCommentIsComment(t: string, i: nat, close: int)
    requires Flat(t) && i <= |t| && StateAt(Postgres(), t, i) == START && MatchAt(t, "/*", i)
    requires close == IndexOf(t, "*/", i + 2)
    ensures close == -1 ==> Unclosed(t)
    ensures close != -1 ==> StateAt(Postgres(), t, close + 2) == START
    ensures close != -1 ==> forall k: nat :: i <= k < close + 2 ==> CommentAt(t, k)
  {
    BlockCommentOpens(t, i);
    var end := if close == -1 then |t| else close + 1;
    if close != -1 { MatchTwo(t, "*/", close); }
    forall k: nat | i + 2 <= k && k + 2 <= end ensures !MatchAt(t, "*/", k) { IndexOfIsFirst(t, "*/", i + 2, k); }
    var u := BlockCommentStates(t, i + 2, i + 2, Block(1), end);
    if close != -1 {
      OneStep(t, close + 1, BlockStar(1), START);
      assert CommentAt(t, close + 1);
    }
  }

  lemma {:induction false} KeptAfterBlockComment(t: string, i: nat)
    requires Flat(t) && i <= |t| && StateAt(Postgres(), t, i) == START && MatchAt(t, "/*", i) && !MatchAt(t, "--", i)
    ensures HasTextFrom(t, i) <==> !OnlyComments(t, i) || Unclosed(t)
    decreases |t| - i, 0
  {
    var close := IndexOf(t, "*/", i + 2);
    BlockCommentIsComment(t, i, close);
    if close == -1 {
      MatchTwo(t, "/*", i);
      NotSpace('/');
    } else {
      OnlyCommentsFrom(t, i, close + 2);
      KeptWhenFlat(t, close + 2);
    }
  }

  lemma {:induction false} NotOnlyComments(t: string, i: nat)
    requires i < |t| && StateAt(Postgres(), t, i) == START && !IsSpace(t[i]) && !MatchAt(t, "--", i)
    requires !MatchAt(t, "/*", i)
    ensures !OnlyComments(t, i)
  {
    MatchTwo(t, "--", i);
    MatchTwo(t, "/*", i);
    OneStep(t, i, START, Step(START, t[i]));
    if t[i] != '-' && t[i] != '/' {
      assert !CommentAt(t, i);
    } else if i + 1 < |t| {
      assert !CommentAt(t, i + 1);
    }
  }

  lemma NestedCommentOpens(t: string)
    requires t == "/*/**/--*/1"
    ensures StateAt(Postgres(), t, 5) == BlockStar(2)
  {
    OneStep(t, 0, START, Slash);
    OneStep(t, 1, Slash, Block(1));
    OneStep(t, 2, Block(1), BlockSlash(1));
    OneStep(t, 3, BlockSlash(1), Block(2));
    OneStep(t, 4, Block(2), BlockStar(2));
  }

  lemma NestedCommentStates(t: string)
    requires t == "/*/**/--*/1"
    ensures StateAt(Postgres(), t, 10) == START && StateAt(Postgres(), t, 11) == Code(Word)
  {
    NestedCommentOpens(t);
    OneStep(t, 5, BlockStar(2), Block(1));
    OneStep(t, 6, Block(1), Block(1));
    OneStep(t, 7, Block(1), Block(1));
    OneStep(t, 8, Block(1), BlockStar(1));
    OneStep(t, 9, BlockStar(1), START);
    OneStep(t, 10, START, Code(Word));
  }

  /**
   * Where comments do nest the test can go wrong: this statement is a nested comment followed by `1`,
   * and it is dropped, because the test ends the comment at the first closing mark and
   * takes what comes then, up to the end, for a line comment.
   */
  lemma NestedCommentDropsAStatement(t: string)
    requires t == "/*/**/--*/1"
    ensures !OnlyComments(t, 0) && !Unclosed(t) && !HasStatementText(t)
  {
    MatchTwo(t, "--", 0);
    MatchTwo(t, "/*", 0);
    MatchTwo(t, "--", 6);
    forall k | 2 <= k <= 4 ensures MatchAt(t, "*/", k) <==> k == 4 { MatchTwo(t, "*/", k); }
    IndexOfIs(t, "*/", 2, 4);
    NoLineEnd(t, 8);
    NestedCommentStates(t);
    NotSpace('1');
    assert !CommentAt(t, 10);
    assert !HasTextFrom(t, 11);
    assert !HasTextFrom(t, 6);
  }

  // ----- no text is lost -----

  /** Whether a character belongs to a comment, its opening marks included. */
  ghost predicate InComment(t: string, k: nat)
    requires k < |t|
  {
    var s, u := StateAt(Postgres(), t, k), StateAt(Postgres(), t, k + 1);
    || s.Line? || InBlock(s) || u.Line? || u.Block?
    || ((u.Dash? || u.Slash?) && k + 1 < |t|
      && (StateAt(Postgres(), t, k + 2).Line? || StateAt(Postgres(), t, k + 2).Block?))
  }

  /** In a text of comments and blanks every visible character belongs to a comment. */
  lemma OnlyCommentsHold(t: string, k: nat)
    requires OnlyComments(t, 0) && k < |t| && VisibleAt(t, k)
    ensures InComment(t, k)
  {
    assert CommentAt(t, k);
    OneStep(t, k, StateAt(Postgres(), t, k), Step(StateAt(Postgres(), t, k), t[k]));
    if k + 1 < |t| {
      assert CommentAt(t, k + 1);
      OneStep(t, k + 1, StateAt(Postgres(), t, k + 1), Step(StateAt(Postgres(), t, k + 1), t[k + 1]));
    }
  }

  /** One past a cut, and past the blanks after it, the automaton is where it starts. */
  lemma StartsAfterCut(sql: string, lo: nat, hi: nat)
    requires BetweenCuts(sql, Cuts(Postgres(), sql), lo, hi)
    ensures StateAt(Postgres(), sql, lo) == START
  {
    if lo > 0 {
      StatesAreSound(sql, lo - 1);
      SemicolonInCode(StateAt(Postgres(), sql, lo - 1));
    }
  }

  lemma {:induction false} BlanksKeepStart(sql: string, lo: nat, f: nat)
    requires lo <= f <= |sql| && StateAt(Postgres(), sql, lo) == START && forall k :: lo <= k < f ==> IsSpace(sql[k])
    ensures StateAt(Postgres(), sql, f) == START
    decreases f - lo
  {
    if lo < f {
      BlankKeepsStart(sql[lo]);
      OneStep(sql, lo, START, START);
      BlanksKeepStart(sql, lo + 1, f);
    }
  }

  /** No block comment of a stretch has another inside. */
  ghost predicate FlatIn(sql: string, lo: nat, hi: nat)
    requires hi <= |sql|
  {
    forall k: nat {:trigger FlatAt(sql, k)} :: lo <= k <= hi ==> FlatAt(sql, k)
  }

  /** A part of a script that is read from the start state on is read as a text of its own. */
  lemma PartIsRead(sql: string, text: string, f: nat, k: nat)
    requires FoundAt(text, sql, f) && StateAt(Postgres(), sql, f) == START && k < |text| && InComment(text, k)
    ensures InComment(sql, f + k)
  {
    StateAtSuffix(Postgres(), text, sql, f, k);
    StateAtSuffix(Postgres(), text, sql, f, k + 1);
    if k + 1 < |text| { StateAtSuffix(Postgres(), text, sql, f, k + 2); }
  }

  lemma PartIsFlat(sql: string, text: string, f: nat)
    requires FoundAt(text, sql, f) && StateAt(Postgres(), sql, f) == START && FlatIn(sql, f, f + |text|)
    ensures Flat(text)
  {
    forall k: nat | k <= |text| ensures FlatAt(text, k) {
      StateAtSuffix(Postgres(), text, sql, f, k);
      assert FlatAt(sql, f + k);
    }
  }

  lemma TextIsKept(sql: string, text: string, f: nat, p: nat)
    requires FoundAt(text, sql, f) && StateAt(Postgres(), sql, f) == START && FlatIn(sql, f, f + |text|)
    requires f <= p < f + |text| && VisibleAt(sql, p) && !InComment(sql, p)
    ensures HasStatementText(text)
  {
    PartIsFlat(sql, text, f);
    KeptWhenFlat(text, 0);
    if OnlyComments(text, 0) {
      assert text[p - f] == sql[p];
      OnlyCommentsHold(text, p - f);
      PartIsRead(sql, text, f, p - f);
    }
  }

  /** A stretch between cuts without nested comments, and with a visible character outside of comments, is kept. */
  lemma StretchIsKept(sql: string, lo: nat, hi: nat, p: nat)
    requires BetweenCuts(sql, Cuts(Postgres(), sql), lo, hi) && lo <= p < hi && FlatIn(sql, lo, hi)
    requires VisibleAt(sql, p) && !InComment(sql, p)
    ensures Piece(sql, lo, hi, HasStatementText).Some?
  {
    var f := SkipSpaces(sql, lo, hi);
    var t := BackSpaces(sql, f, hi);
    StartsAfterCut(sql, lo, hi);
    forall k | lo <= k < f ensures IsSpace(sql[k]) { SkipsBlanks(sql, lo, hi, k); }
    BlanksKeepStart(sql, lo, f);
    TrimmedHolds(sql, lo, hi, p);
    TextIsKept(sql, sql[f..t], f, p);
  }

  /**
   * No text is lost: every visible character that is outside of comments and no semicolon that cuts is in exactly one
   * range, when the block comments of its statement do not nest.
   */
  lemma EveryTextIsInARange(sql: string, p: nat, lo: nat, hi: nat)
    requires BetweenCuts(sql, Cuts(Postgres(), sql), lo, hi) && lo <= p < hi && FlatIn(sql, lo, hi)
    requires VisibleAt(sql, p) && !InComment(sql, p)
    ensures HeldOnce(SplitAtCode(sql), p)
  {
    StretchIsKept(sql, lo, hi, p);
    PlaceIsHeld(sql, Cuts(Postgres(), sql), HasStatementText, lo, hi, p);
    SplitAtIsWellSplit(sql, Cuts(Postgres(), sql), HasStatementText);
    HeldInOne(sql, SplitAtCode(sql), p);
  }

  /**
   * In general a visible character is in a range exactly when something visible is left of its trimmed statement once
   * all that reads like a comment without nesting is taken out.
   */
  lemma CharacterIsHeldExactly(sql: string, p: nat, lo: nat, hi: nat)
    requires BetweenCuts(sql, Cuts(Postgres(), sql), lo, hi) && lo <= p < hi && VisibleAt(sql, p)
    ensures var f := SkipSpaces(sql, lo, hi);
      var text := sql[f..BackSpaces(sql, f, hi)];
      Holds(SplitAtCode(sql), p) <==> !Blank(StripComments(text, 0))
  {
    var f := SkipSpaces(sql, lo, hi);
    PlaceIsHeld(sql, Cuts(Postgres(), sql), HasStatementText, lo, hi, p);
    TrimmedHolds(sql, lo, hi, p);
    HasTextIsNotBlank(sql[f..BackSpaces(sql, f, hi)], 0);
  }

  /** So in a script whose block comments do not nest all of its text is in its ranges. */
  lemma AllTextIsInRanges(sql: string)
    requires Flat(sql)
    ensures forall p: nat | p < |sql| && p !in Cuts(Postgres(), sql) && VisibleAt(sql, p) && !InComment(sql, p) ::
      HeldOnce(SplitAtCode(sql), p)
  {
    forall p: nat | p < |sql| && p !in Cuts(Postgres(), sql) && VisibleAt(sql, p) && !InComment(sql, p)
      ensures HeldOnce(SplitAtCode(sql), p)
    {
      var lo, hi := StretchAround(sql, Cuts(Postgres(), sql), p);
      EveryTextIsInARange(sql, p, lo, hi);
    }
  }
}

/**
 * SQLite's comments and quoted names and texts, read one character at a time: what is a comment, what is quoted
 * and what is code, said apart from the splitter's lexemes.
 */
module SqliteStates {
  import opened Text
  import opened Statements

  datatype State =
    | Code
    | Slash                       // code, after a `/` that may start a comment
    | Dash                        // code, after a `-` that may start a comment
    | Line                        // in a comment up to the end of the line
    | Block(star: bool)           // in a block comment
    | InQuotes(quote: char)
    | MaybeClosed(quote: char)    // code, unless the quote that was just read is doubled
    | InBrackets

  predicate InCode(s: State) { s.Code? || s.Slash? || s.Dash? || s.MaybeClosed? }

  function CodeStep(c: char): State {
    if c == '\'' || c == '"' || c == '`' then InQuotes(c)
    else if c == '[' then InBrackets
    else if c == '-' then Dash
    else if c == '/' then Slash
    else Code
  }

  function Step(s: State, c: char): State {
    match s
    case Code => CodeStep(c)
    case Slash => if c == '*' then Block(false) else CodeStep(c)
    case Dash => if c == '-' then Line else CodeStep(c)
    case Line => if c == '\n' then Code else Line
    case Block(star) => if star && c == '/' then Code else Block(c == '*')
    case InQuotes(q) => if c == q then MaybeClosed(q) else s
    case MaybeClosed(q) => if c == q then InQuotes(q) else CodeStep(c)
    case InBrackets => if c == ']' then Code else InBrackets
  }

  /** The state before position `i`. */
  ghost function StateAt(sql: string, i: nat): State
    requires i <= |sql|
  {
    if i == 0 then Code else Step(StateAt(sql, i - 1), sql[i - 1])
  }

  predicate CharAt(sql: string, i: nat, c: char) { i < |sql| && sql[i] == c }

  /** Whether the character at `i`, read in state `s`, belongs to a comment. */
  predicate Comment(s: State, sql: string, i: nat)
    requires i < |sql|
  {
    match Step(s, sql[i])
    case Line => true
    case Block(_) => true
    case Slash => CharAt(sql, i + 1, '*')
    case Dash => CharAt(sql, i + 1, '-')
    case Code => s == Block(true)
    case _ => false
  }

  ghost predicate CommentAt(sql: string, i: nat)
    requires i < |sql|
  {
    Comment(StateAt(sql, i), sql, i)
  }

  /** A semicolon that is neither quoted nor in a comment. */
  ghost predicate CodeSemicolon(sql: string, i: nat) {
    i < |sql| && sql[i] == ';' && InCode(StateAt(sql, i))
  }
}

/** The lexemes of the splitter are what the states call text and comments. */
module SqliteTexts {
  import opened Text
  import opened Statements
  import opened SqliteLexer
  import opened SqliteSplitter
  import opened SqliteStatements
  import opened SqliteStates

  /** At `i` the splitter starts to read in a state where nothing that is pending comes true. */
  predicate Fits(s: State, sql: string, i: nat) {
    i < |sql| ==>
      match s
      case Code => true
      case Slash => sql[i] != '*'
      case Dash => sql[i] != '-'
      case MaybeClosed(q) => sql[i] != q
      case _ => false
  }

  ghost predicate FitsAt(sql: string, i: nat)
    requires i <= |sql|
  {
    Fits(StateAt(sql, i), sql, i)
  }

  lemma Forward(sql: string, i: nat, s: State)
    requires i < |sql| && StateAt(sql, i) == s
    ensures StateAt(sql, i + 1) == Step(s, sql[i])
  {}

  /** All of a stretch is text, or all of it a comment, and no semicolon of it is code. */
  ghost predicate AllText(sql: string, i: nat, j: nat, text: bool) {
    i <= j <= |sql| && forall k: nat :: i <= k < j ==> (CommentAt(sql, k) <==> !text) && !CodeSemicolon(sql, k)
  }

  lemma OneMore(sql: string, i: nat, j: nat, text: bool)
    requires i < |sql| && AllText(sql, i + 1, j, text)
    requires (CommentAt(sql, i) <==> !text) && !CodeSemicolon(sql, i)
    ensures AllText(sql, i, j, text)
  {}

  lemma {:induction false} ReadsQuotes(sql: string, i: nat, q: char)
    requires i <= |sql| && StateAt(sql, i) == InQuotes(q) && IsQuote(q)
    ensures var e := QuoteEnd(sql, i, q); AllText(sql, i, e, true) && FitsAt(sql, e)
    decreases |sql| - i
  {
    if i < |sql| {
      var e, s := QuoteEnd(sql, i, q), Step(InQuotes(q), sql[i]);
      Forward(sql, i, InQuotes(q));
      if i + 1 == |sql| {
      } else if s.MaybeClosed? && sql[i + 1] == q {
        Forward(sql, i + 1, s);
        ReadsQuotes(sql, i + 2, q);
        OneMore(sql, i + 1, e, true);
      } else if s.InQuotes? {
        ReadsQuotes(sql, i + 1, q);
      }
      OneMore(sql, i, e, true);
    }
  }

  lemma {:induction false} ReadsBrackets(sql: string, i: nat)
    requires i <= |sql| && StateAt(sql, i) == InBrackets
    ensures var e := Past(sql, "]", i); AllText(sql, i, e, true) && FitsAt(sql, e)
    decreases |sql| - i
  {
    if i < |sql| {
      MatchOne(sql, "]", i);
      Forward(sql, i, InBrackets);
      if sql[i] != ']' { ReadsBrackets(sql, i + 1); }
      OneMore(sql, i, Past(sql, "]", i), true);
    }
  }

  /** The line feed at the end of the comment is blank and no comment. */
  lemma {:induction false} ReadsLineComment(sql: string, i: nat)
    requires i <= |sql| && StateAt(sql, i) == Line
    ensures NoText(sql, i, Past(sql, "\n", i)) && FitsAt(sql, Past(sql, "\n", i))
    decreases |sql| - i
  {
    if i < |sql| {
      MatchOne(sql, "\n", i);
      CommonSpaces();
      Forward(sql, i, Line);
      if sql[i] != '\n' { ReadsLineComment(sql, i + 1); }
    }
  }

  /** From `i` to `j` there are only blanks and comments. */
  ghost predicate NoText(sql: string, i: nat, j: nat) {
    i <= j <= |sql| && forall k: nat :: i <= k < j ==>
      (IsSpace(sql[k]) || CommentAt(sql, k)) && !CodeSemicolon(sql, k)
  }

  lemma {:induction false} ReadsBlockComment(sql: string, i: nat, star: bool)
    requires i <= |sql| && StateAt(sql, i) == Block(star) && (star ==> i > 0 && sql[i - 1] == '*')
    ensures var e := Past(sql, "*/", if star then i - 1 else i);
      i <= e && AllText(sql, i, e, false) && FitsAt(sql, e)
    decreases |sql| - i
  {
    var e := Past(sql, "*/", if star then i - 1 else i);
    if star { MatchTwo(sql, "*/", i - 1); }
    if i < |sql| {
      MatchTwo(sql, "*/", i);
      Forward(sql, i, Block(star));
      if star && sql[i] == '/' {
        assert e == i + 1;
      } else {
        assert IndexOf(sql, "*/", if star then i - 1 else i) == IndexOf(sql, "*/", if sql[i] == '*' then i else i + 1);
        ReadsBlockComment(sql, i + 1, sql[i] == '*');
      }
      OneMore(sql, i, e, false);
    }
  }

  lemma {:induction false} ReadsDashes(sql: string, i: nat)
    requires i < |sql| && FitsAt(sql, i) && LineCommentAt(sql, i)
    ensures NoText(sql, i, Past(sql, "\n", i)) && FitsAt(sql, Past(sql, "\n", i))
  {
    MatchOne(sql, "\n", i);
    MatchOne(sql, "\n", i + 1);
    Forward(sql, i, StateAt(sql, i));
    Forward(sql, i + 1, Dash);
    assert IndexOf(sql, "\n", i) == IndexOf(sql, "\n", i + 1) == IndexOf(sql, "\n", i + 2);
    ReadsLineComment(sql, i + 2);
    assert CommentAt(sql, i) && CommentAt(sql, i + 1);
  }

  lemma {:induction false} ReadsBlock(sql: string, i: nat)
    requires i < |sql| && FitsAt(sql, i) && BlockCommentAt(sql, i)
    ensures var e := Past(sql, "*/", i + 2); AllText(sql, i, e, false) && FitsAt(sql, e)
  {
    Forward(sql, i, StateAt(sql, i));
    Forward(sql, i + 1, Slash);
    ReadsBlockComment(sql, i + 2, false);
    OneMore(sql, i + 1, Past(sql, "*/", i + 2), false);
    OneMore(sql, i, Past(sql, "*/", i + 2), false);
  }

  lemma {:induction false} ReadsWord(sql: string, i: nat)
    requires i <= |sql| && StateAt(sql, i) == Code
    ensures var e := WordEnd(sql, i); AllText(sql, i, e, true) && StateAt(sql, e) == Code
    decreases |sql| - i
  {
    if i < |sql| && WordPart(sql[i]) {
      Forward(sql, i, Code);
      ReadsWord(sql, i + 1);
      OneMore(sql, i, WordEnd(sql, i), true);
    }
  }

  lemma MarksAreVisible()
    ensures !IsSpace(';') && !IsSpace('\'') && !IsSpace('"') && !IsSpace('`') && !IsSpace('[') && !IsSpace('-')
      && !IsSpace('/')
  {
    NotSpace(';');
    NotSpace('\'');
    NotSpace('"');
    NotSpace('`');
    NotSpace('[');
    NotSpace('-');
    NotSpace('/');
  }

  /** No character of a token is in a comment; a semicolon of it is code exactly when it is the whole token. */
  ghost predicate TokenText(sql: string, i: nat, j: nat, token: Token) {
    i < j <= |sql| && forall k: nat :: i <= k < j ==>
      !CommentAt(sql, k) && (CodeSemicolon(sql, k) <==> token == Semi)
  }

  lemma {:induction false} LexemeIsText(sql: string, i: nat)
    requires i < |sql| && FitsAt(sql, i)
    ensures FitsAt(sql, LexemeEnd(sql, i))
    ensures match LexemeAt(sql, i)
      case Gap => NoText(sql, i, LexemeEnd(sql, i))
      case Significant(token) => TokenText(sql, i, LexemeEnd(sql, i), token)
  {
    if LineCommentAt(sql, i) {
      ReadsDashes(sql, i);
    } else if BlockCommentAt(sql, i) {
      ReadsBlock(sql, i);
    } else {
      var e := LexemeEnd(sql, i);
      MarksAreVisible();
      Forward(sql, i, StateAt(sql, i));
      if IsQuote(sql[i]) {
        ReadsQuotes(sql, i + 1, sql[i]);
        OneMore(sql, i, e, true);
      } else if sql[i] == '[' {
        ReadsBrackets(sql, i + 1);
        OneMore(sql, i, e, true);
      } else if WordStart(sql[i]) {
        ReadsWord(sql, i + 1);
        OneMore(sql, i, e, true);
      }
    }
  }

  /** What is read at a place: the lexeme around it, from `i` on. */
  lemma {:induction false} LexemeAround(sql: string, i: nat, p: nat) returns (k: nat)
    requires i <= p < |sql| && FitsAt(sql, i)
    ensures i <= k <= p < LexemeEnd(sql, k) && Boundary(sql, i, k) && FitsAt(sql, k)
    decreases |sql| - i
  {
    LexemeIsText(sql, i);
    if p < LexemeEnd(sql, i) { k := i; } else { k := LexemeAround(sql, LexemeEnd(sql, i), p); }
  }

  /** A semicolon is a token of its own exactly when it is neither quoted nor in a comment. */
  lemma SemicolonsAreCode(sql: string, p: nat)
    requires p < |sql|
    ensures TokenAt(sql, 0, p) && LexemeAt(sql, p) == Significant(Semi) <==> CodeSemicolon(sql, p)
  {
    var k := LexemeAround(sql, 0, p);
    LexemeIsText(sql, k);
    if Boundary(sql, 0, p) { SameLexeme(sql, 0, k, p); }
  }

  lemma {:induction false} SameLexeme(sql: string, i: nat, k: nat, p: nat)
    requires i <= |sql| && Boundary(sql, i, k) && Boundary(sql, i, p) && k <= p && k < |sql| && p < LexemeEnd(sql, k)
    ensures k == p
    decreases |sql| - i
  {
    if i < k { SameLexeme(sql, LexemeEnd(sql, i), k, p); }
  }

  /** Every visible character outside of comments that does not separate is in exactly one range. */
  lemma EveryTextIsInARange(sql: string, p: nat)
    requires VisibleAt(sql, p) && !CommentAt(sql, p) && p !in Cuts(sql, 0, Empty)
    ensures HeldOnce(SplitAtSeparators(sql), p)
  {
    var cuts := Cuts(sql, 0, Empty);
    var k := LexemeAround(sql, 0, p);
    LexemeIsText(sql, k);
    var lo, hi := StretchAround(sql, cuts, p);
    StretchIsRead(sql, lo, hi);
    StretchHasTheLexeme(sql, lo, hi, k, p);
    TextShows(sql, lo, k, p, hi);
    KeptWhenItShows(sql, lo, hi);
    PlaceIsHeld(sql, cuts, HasStatementText, lo, hi, p);
    SplitAtIsWellSplit(sql, cuts, HasStatementText);
    HeldInOne(sql, SplitAtSeparators(sql), p);
  }

  /** The lexeme around a place is in the stretch around it. */
  lemma StretchHasTheLexeme(sql: string, lo: nat, hi: nat, k: nat, p: nat)
    requires lo <= p < hi <= |sql| && k <= p < |sql| && p < LexemeEnd(sql, k)
    requires Boundary(sql, 0, lo) && Boundary(sql, lo, hi) && Boundary(sql, 0, k)
    ensures lo <= k && Boundary(sql, lo, k) && LexemeEnd(sql, k) <= hi
  {
    if k < lo {
      BoundaryFrom(sql, 0, k, lo);
      NextBoundary(sql, k, lo);
    }
    BoundaryFrom(sql, 0, lo, k);
    BoundaryFrom(sql, lo, k, hi);
    NextBoundary(sql, k, hi);
  }

  /** A token with a visible character shows. */
  lemma {:induction false} TextShows(sql: string, i: nat, k: nat, p: nat, hi: nat)
    requires i <= k <= p < hi <= |sql| && p < LexemeEnd(sql, k) <= hi && Boundary(sql, i, k)
    requires LexemeAt(sql, k).Significant? && VisibleAt(sql, p)
    ensures ShowsFrom(sql, i, hi)
    decreases |sql| - i
  {
    if i < k { TextShows(sql, LexemeEnd(sql, i), k, p, hi); }
  }

  /** Where a statement ends there is a semicolon that is code. */
  lemma SeparatorsAreCode(sql: string, p: nat)
    requires p in Cuts(sql, 0, Empty)
    ensures CodeSemicolon(sql, p)
  {
    CutsAreBoundaries(sql, 0, Empty, p);
    SemicolonsAreCode(sql, p);
  }
}

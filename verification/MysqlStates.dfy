/**
 * MySQL's comments and quoted texts (MySQL 8.4 manual, sections 11.1.1 and 11.7), read one character at a time: what
 * is a comment, what is quoted and what is code, said apart from the splitter's tokens.
 */
module MysqlStates {
  import opened Text
  import opened Statements

  datatype State =
    | Code
    | Slash                                 // code, after a `/` that may start a comment
    | Dash                                  // code, after a `-` that may start a comment
    | Dashes                                // code, after two, which do before a blank
    | Line                                  // in a comment up to the end of the line
    | Opening                               // after `/*`
    | Block(runs: bool, star: bool)         // in a block comment, which MySQL runs if it started with `/*!`
    | InQuotes(quote: char)
    | Escaped(quote: char)                  // … after a backslash
    | MaybeClosed(quote: char)              // code, unless the quote that was just read is doubled

  predicate InCode(s: State) { s.Code? || s.Slash? || s.Dash? || s.Dashes? || s.MaybeClosed? }

  function CodeStep(c: char): State {
    if c == '\'' || c == '"' || c == '`' then InQuotes(c)
    else if c == '#' then Line
    else if c == '-' then Dash
    else if c == '/' then Slash
    else Code
  }

  function Step(s: State, c: char): State {
    match s
    case Code => CodeStep(c)
    case Slash => if c == '*' then Opening else CodeStep(c)
    case Dash => if c == '-' then Dashes else CodeStep(c)
    case Dashes =>
      if c == '\n' then Code else if IsSpace(c) then Line else if c == '-' then Dashes else CodeStep(c)
    case Line => if c == '\n' then Code else Line
    case Opening => Block(c == '!', c == '*')
    case Block(runs, star) => if star && c == '/' then Code else Block(runs, c == '*')
    case InQuotes(q) => if c == '\\' && q != '`' then Escaped(q) else if c == q then MaybeClosed(q) else s
    case Escaped(q) => InQuotes(q)
    case MaybeClosed(q) => if c == q then InQuotes(q) else CodeStep(c)
  }

  /** The `DELIMITER` lines of a script: reading starts again where one ends. */
  ghost predicate EndsAt(lines: set<Range>, i: nat) { exists l :: l in lines && l.to == i }

  ghost predicate InLine(lines: set<Range>, i: nat) { exists l :: l in lines && Inside(l, i) }

  /** The state before position `i`. */
  ghost function StateAt(sql: string, lines: set<Range>, i: nat): State
    requires i <= |sql|
  {
    if i == 0 || EndsAt(lines, i) then Code else Step(StateAt(sql, lines, i - 1), sql[i - 1])
  }

  predicate CharAt(sql: string, i: nat, c: char) { i < |sql| && sql[i] == c }

  predicate BlankOrEnd(sql: string, i: nat) { i >= |sql| || IsSpace(sql[i]) }

  /** Whether the character at `i`, read in state `s`, belongs to a comment that MySQL does not run. */
  predicate Comment(s: State, sql: string, i: nat)
    requires i < |sql|
  {
    match Step(s, sql[i])
    case Line => true
    case Block(runs, _) => !runs
    case Opening => !CharAt(sql, i + 1, '!')
    case Slash => CharAt(sql, i + 1, '*') && !CharAt(sql, i + 2, '!')
    case Dashes => BlankOrEnd(sql, i + 1) || (CharAt(sql, i + 1, '-') && BlankOrEnd(sql, i + 2))
    case Dash => CharAt(sql, i + 1, '-') && BlankOrEnd(sql, i + 2)
    case Code => s == Block(false, true)
    case _ => false
  }

  ghost predicate CommentAt(sql: string, lines: set<Range>, i: nat)
    requires i < |sql|
  {
    Comment(StateAt(sql, lines, i), sql, i)
  }

  /** A visible character of a `DELIMITER` line or outside of comments. */
  ghost predicate TextAt(sql: string, lines: set<Range>, i: nat) {
    VisibleAt(sql, i) && (InLine(lines, i) || !CommentAt(sql, lines, i))
  }

  /** A semicolon that is neither quoted nor in a comment of any kind. */
  ghost predicate CodeSemicolon(sql: string, lines: set<Range>, i: nat) {
    i < |sql| && sql[i] == ';' && InCode(StateAt(sql, lines, i))
  }
}

/** The tokens of the splitter are what the states call text. */
module MysqlTexts {
  import opened Text
  import opened Statements
  import opened MysqlLexer
  import opened MysqlStates

  /** At `i` the splitter starts to read in a state where nothing that is pending comes true. */
  predicate Fits(s: State, sql: string, i: nat) {
    i < |sql| ==>
      match s
      case Code => true
      case Slash => sql[i] != '*'
      case Dash => DashFits(sql, i)
      case Dashes => sql[i] == '\n' || (!IsSpace(sql[i]) && DashFits(sql, i))
      case Line => sql[i] == '\n'
      case MaybeClosed(q) => sql[i] != q
      case _ => false
  }

  predicate DashFits(sql: string, i: nat) { CharAt(sql, i, '-') ==> !BlankOrEnd(sql, i + 1) }

  /** No reading starts again after `i` and up to `j`. */
  ghost predicate Quiet(lines: set<Range>, i: nat, j: nat) { forall k: nat :: i < k <= j ==> !EndsAt(lines, k) }

  ghost predicate FitsAt(sql: string, lines: set<Range>, i: nat)
    requires i <= |sql|
  {
    Fits(StateAt(sql, lines, i), sql, i)
  }

  lemma Forward(sql: string, lines: set<Range>, i: nat, s: State)
    requires i < |sql| && !EndsAt(lines, i + 1) && StateAt(sql, lines, i) == s
    ensures StateAt(sql, lines, i + 1) == Step(s, sql[i])
  {}

  /** All of a stretch is text, or all of it a comment, and no semicolon of it is code. */
  ghost predicate AllText(sql: string, lines: set<Range>, i: nat, j: nat, text: bool) {
    i <= j <= |sql| && forall k: nat :: i <= k < j ==>
      (CommentAt(sql, lines, k) <==> !text) && !CodeSemicolon(sql, lines, k)
  }

  lemma OneMore(sql: string, lines: set<Range>, i: nat, j: nat, text: bool)
    requires i < |sql| && AllText(sql, lines, i + 1, j, text)
    requires (CommentAt(sql, lines, i) <==> !text) && !CodeSemicolon(sql, lines, i)
    ensures AllText(sql, lines, i, j, text)
  {}

  lemma {:induction false} ReadsLineComment(sql: string, lines: set<Range>, i: nat)
    requires i <= |sql| && StateAt(sql, lines, i) == Line && Quiet(lines, i, LineEnd(sql, i))
    ensures AllText(sql, lines, i, LineEnd(sql, i), false) && StateAt(sql, lines, LineEnd(sql, i)) == Line
    decreases |sql| - i
  {
    if i < |sql| && sql[i] != '\n' {
      Forward(sql, lines, i, Line);
      ReadsLineComment(sql, lines, i + 1);
      OneMore(sql, lines, i, LineEnd(sql, i), false);
    }
  }

  lemma {:induction false} ReadsQuotes(sql: string, lines: set<Range>, i: nat, q: char)
    requires i <= |sql| && StateAt(sql, lines, i) == InQuotes(q) && Quiet(lines, i, QuotedEnd(sql, i, q))
    requires IsQuote(q)
    ensures var e := QuotedEnd(sql, i, q);
      AllText(sql, lines, i, e, true) && FitsAt(sql, lines, e)
    decreases |sql| - i
  {
    if i < |sql| {
      var e, s := QuotedEnd(sql, i, q), Step(InQuotes(q), sql[i]);
      Forward(sql, lines, i, InQuotes(q));
      if i + 1 == |sql| {
      } else if s.Escaped? || (s.MaybeClosed? && sql[i + 1] == q) {
        Forward(sql, lines, i + 1, s);
        ReadsQuotes(sql, lines, i + 2, q);
        OneMore(sql, lines, i + 1, e, true);
      } else if s.InQuotes? {
        ReadsQuotes(sql, lines, i + 1, q);
      }
      OneMore(sql, lines, i, e, true);
    }
  }

  /** Where the closing mark is looked for. */
  function CloseFrom(sql: string, i: nat, star: bool): (e: nat)
    requires i <= |sql| && (star ==> i > 0)
  {
    var close := IndexOf(sql, "*/", if star then i - 1 else i);
    if close == -1 then |sql| else close + 2
  }

  lemma {:induction false} ReadsBlockComment(sql: string, lines: set<Range>, i: nat, runs: bool, star: bool)
    requires i <= |sql| && StateAt(sql, lines, i) == Block(runs, star) && (star ==> i > 0 && sql[i - 1] == '*')
    requires Quiet(lines, i, CloseFrom(sql, i, star))
    ensures var e := CloseFrom(sql, i, star);
      AllText(sql, lines, i, e, runs) && FitsAt(sql, lines, e)
    decreases |sql| - i
  {
    var e := CloseFrom(sql, i, star);
    if star { MatchTwo(sql, "*/", i - 1); }
    if i < |sql| {
      MatchTwo(sql, "*/", i);
      Forward(sql, lines, i, Block(runs, star));
      if star && sql[i] == '/' {
        assert e == i + 1;
      } else {
        assert IndexOf(sql, "*/", if star then i - 1 else i) == IndexOf(sql, "*/", if sql[i] == '*' then i else i + 1);
        ReadsBlockComment(sql, lines, i + 1, runs, sql[i] == '*');
      }
      OneMore(sql, lines, i, e, runs);
    }
  }

  /** A block comment, from its opening mark on. */
  lemma {:induction false} ReadsBlock(sql: string, lines: set<Range>, i: nat, runs: bool)
    requires i < |sql| && FitsAt(sql, lines, i) && BlockCommentAt(sql, i) && (runs <==> CharAt(sql, i + 2, '!'))
    requires Quiet(lines, i, BlockCommentEnd(sql, i))
    ensures var e := BlockCommentEnd(sql, i);
      AllText(sql, lines, i, e, runs) && FitsAt(sql, lines, e)
  {
    var e := BlockCommentEnd(sql, i);
    Forward(sql, lines, i, StateAt(sql, lines, i));
    Forward(sql, lines, i + 1, Slash);
    if i + 2 < |sql| {
      MatchTwo(sql, "*/", i + 2);
      Forward(sql, lines, i + 2, Opening);
      assert IndexOf(sql, "*/", i + 2) == IndexOf(sql, "*/", if sql[i + 2] == '*' then i + 2 else i + 3);
      ReadsBlockComment(sql, lines, i + 3, runs, sql[i + 2] == '*');
      OneMore(sql, lines, i + 2, e, runs);
    }
    OneMore(sql, lines, i + 1, e, runs);
    OneMore(sql, lines, i, e, runs);
  }

  lemma {:induction false} DashesAreComment(sql: string, lines: set<Range>, i: nat, s: State)
    requires i + 1 < |sql| && StateAt(sql, lines, i) == s && Fits(s, sql, i) && sql[i] == '-' && sql[i + 1] == '-'
    requires BlankOrEnd(sql, i + 2) && Quiet(lines, i, i + 2)
    ensures StateAt(sql, lines, i + 2) == Dashes && AllText(sql, lines, i, i + 2, false)
  {
    var t := Step(s, '-');
    Forward(sql, lines, i, s);
    Forward(sql, lines, i + 1, t);
    assert t.Dash? || t.Dashes?;
    assert CommentAt(sql, lines, i) && CommentAt(sql, lines, i + 1);
  }

  lemma Together(sql: string, lines: set<Range>, i: nat, m: nat, j: nat, text: bool)
    requires AllText(sql, lines, i, m, text) && AllText(sql, lines, m, j, text)
    ensures AllText(sql, lines, i, j, text)
  {}

  lemma {:induction false} ReadsAfterDashes(sql: string, lines: set<Range>, i: nat)
    requires i <= |sql| && StateAt(sql, lines, i) == Dashes && BlankOrEnd(sql, i)
    requires Quiet(lines, i, LineEnd(sql, i))
    ensures AllText(sql, lines, i, LineEnd(sql, i), false) && FitsAt(sql, lines, LineEnd(sql, i))
  {
    if i < LineEnd(sql, i) {
      NotSpace(';');
      Forward(sql, lines, i, Dashes);
      ReadsLineComment(sql, lines, i + 1);
      OneMore(sql, lines, i, LineEnd(sql, i), false);
    }
  }

  lemma {:induction false} ReadsDashes(sql: string, lines: set<Range>, i: nat)
    requires i < |sql| && FitsAt(sql, lines, i) && LineCommentAt(sql, i) && sql[i] == '-'
    requires Quiet(lines, i, LineEnd(sql, i))
    ensures AllText(sql, lines, i, LineEnd(sql, i), false) && FitsAt(sql, lines, LineEnd(sql, i))
  {
    var e := LineEnd(sql, i);
    assert e == LineEnd(sql, i + 1) == LineEnd(sql, i + 2);
    DashesAreComment(sql, lines, i, StateAt(sql, lines, i));
    ReadsAfterDashes(sql, lines, i + 2);
    Together(sql, lines, i, i + 2, e, false);
  }

  lemma MarksAreVisible()
    ensures !IsSpace(';') && !IsSpace('\'') && !IsSpace('"') && !IsSpace('`') && !IsSpace('#') && !IsSpace('-')
      && !IsSpace('/')
  {
    NotSpace(';');
    NotSpace('\'');
    NotSpace('"');
    NotSpace('`');
    NotSpace('#');
    NotSpace('-');
    NotSpace('/');
  }

  /** From `i` to `j` there are only blanks and comments. */
  ghost predicate NoText(sql: string, lines: set<Range>, i: nat, j: nat) {
    i <= j <= |sql| && forall k: nat :: i <= k < j ==>
      (IsSpace(sql[k]) || CommentAt(sql, lines, k)) && !CodeSemicolon(sql, lines, k)
  }

  lemma {:induction false} GapIsNoText(sql: string, lines: set<Range>, i: nat)
    requires i < |sql| && FitsAt(sql, lines, i) && GapEnd(sql, i).Some? && Quiet(lines, i, GapEnd(sql, i).value)
    ensures NoText(sql, lines, i, GapEnd(sql, i).value) && FitsAt(sql, lines, GapEnd(sql, i).value)
  {
    MarksAreVisible();
    if IsSpace(sql[i]) {
      Forward(sql, lines, i, StateAt(sql, lines, i));
    } else if LineCommentAt(sql, i) && sql[i] == '-' {
      ReadsDashes(sql, lines, i);
    } else if LineCommentAt(sql, i) {
      Forward(sql, lines, i, StateAt(sql, lines, i));
      ReadsLineComment(sql, lines, i + 1);
      OneMore(sql, lines, i, LineEnd(sql, i), false);
    } else {
      ReadsBlock(sql, lines, i, false);
    }
  }

  lemma {:induction false} ReadsWord(sql: string, lines: set<Range>, i: nat)
    requires i <= |sql| && StateAt(sql, lines, i) == Code && Quiet(lines, i, WordEnd(sql, i))
    ensures var e := WordEnd(sql, i); AllText(sql, lines, i, e, true) && StateAt(sql, lines, e) == Code
    decreases |sql| - i
  {
    if WordAt(sql, i) {
      Forward(sql, lines, i, Code);
      ReadsWord(sql, lines, i + 1);
      OneMore(sql, lines, i, WordEnd(sql, i), true);
    }
  }

  /** No character of a token is in a comment; a semicolon of it is code exactly when it is the whole token. */
  ghost predicate TokenText(sql: string, lines: set<Range>, t: Token) {
    t.start < t.end <= |sql| && forall k: nat :: t.start <= k < t.end ==>
      !CommentAt(sql, lines, k) && (CodeSemicolon(sql, lines, k) <==> t.sym == Semi)
  }

  lemma {:induction false} TokenIsText(sql: string, lines: set<Range>, i: nat)
    requires i < |sql| && FitsAt(sql, lines, i) && GapEnd(sql, i).None? && Quiet(lines, i, TokenAt(sql, i).end)
    ensures TokenText(sql, lines, TokenAt(sql, i)) && FitsAt(sql, lines, TokenAt(sql, i).end)
  {
    var t := TokenAt(sql, i);
    var s := StateAt(sql, lines, i);
    CommonSpaces();
    if BlockCommentAt(sql, i) {
      ReadsBlock(sql, lines, i, true);
    } else {
      Forward(sql, lines, i, s);
      if IsQuote(sql[i]) {
        ReadsQuotes(sql, lines, i + 1, sql[i]);
        OneMore(sql, lines, i, t.end, true);
      } else if sql[i] != ';' && WordAt(sql, i) {
        ReadsWord(sql, lines, i + 1);
        OneMore(sql, lines, i, t.end, true);
      }
    }
  }

  /** Between two tokens there are only blanks and comments. */
  lemma {:induction false} NextIsText(sql: string, lines: set<Range>, i: nat)
    requires i <= |sql| && FitsAt(sql, lines, i)
    requires var t := NextToken(sql, i); Quiet(lines, i, if t.Some? then t.value.start else |sql|)
    ensures match NextToken(sql, i)
      case None => NoText(sql, lines, i, |sql|)
      case Some(t) =>
        && NoText(sql, lines, i, t.start) && FitsAt(sql, lines, t.start) && GapEnd(sql, t.start).None?
        && TokenAt(sql, t.start) == t
    decreases |sql| - i
  {
    if i < |sql| && GapEnd(sql, i).Some? {
      var e := GapEnd(sql, i).value;
      GapIsNoText(sql, lines, i);
      NextIsText(sql, lines, e);
    }
  }
}

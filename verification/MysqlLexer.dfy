/** MySQL's tokens. */
module MysqlLexer {
  import opened Text
  import opened Statements

  /** The words that the splitter tells apart. */
  datatype Keyword =
    | CREATE | OR | REPLACE | DEFINER | CURRENT_USER | AGGREGATE | PROCEDURE | FUNCTION | TRIGGER | EVENT
    | BEGIN | CASE | IF | WHILE | LOOP | REPEAT | END | THEN | ELSE | DO | DECLARE | EACH | ROW | FOLLOWS | PRECEDES
    | WORK | WHEN | AND | NOT | DELIMITER
    | OTHER

  function KeywordOf(text: string): Keyword {
    if text == "CREATE" then CREATE else if text == "OR" then OR else if text == "REPLACE" then REPLACE
    else if text == "DEFINER" then DEFINER else if text == "CURRENT_USER" then CURRENT_USER
    else if text == "AGGREGATE" then AGGREGATE else if text == "PROCEDURE" then PROCEDURE
    else if text == "FUNCTION" then FUNCTION else if text == "TRIGGER" then TRIGGER else if text == "EVENT" then EVENT
    else if text == "BEGIN" then BEGIN else if text == "CASE" then CASE else if text == "IF" then IF
    else if text == "WHILE" then WHILE else if text == "LOOP" then LOOP else if text == "REPEAT" then REPEAT
    else if text == "END" then END else if text == "THEN" then THEN else if text == "ELSE" then ELSE
    else if text == "DO" then DO else if text == "DECLARE" then DECLARE else if text == "EACH" then EACH
    else if text == "ROW" then ROW else if text == "FOLLOWS" then FOLLOWS else if text == "PRECEDES" then PRECEDES
    else if text == "WORK" then WORK else if text == "WHEN" then WHEN else if text == "AND" then AND
    else if text == "NOT" then NOT else if text == "DELIMITER" then DELIMITER
    else OTHER
  }

  /**
   * A token, as far as the splitter tells tokens apart: a word by its text in ASCII upper case; a punctuation
   * mark by the mark and whether an `=` comes right after it.
   */
  datatype Sym = Word(word: Keyword) | Quoted | Versioned | Semi | Punct(mark: char, beforeEq: bool)

  datatype Token = Token(sym: Sym, start: nat, end: nat)

  predicate IsWordSym(s: Option<Sym>, word: Keyword) { s == Some(Word(word)) }

  predicate IsPunct(s: Option<Sym>, c: char) { s.Some? && s.value.Punct? && s.value.mark == c }

  predicate IsQuote(c: char) { c == '\'' || c == '"' || c == '`' }

  predicate WordChar(c: char) { IsWord(c) || c == '$' || c >= '\U{80}' }

  /** Whether a word can start or go on here: not at `$$`. */
  predicate WordAt(sql: string, i: nat) {
    i < |sql| && WordChar(sql[i]) && !(sql[i] == '$' && i + 1 < |sql| && sql[i + 1] == '$')
  }

  function WordEnd(sql: string, i: nat): (e: nat)
    requires i <= |sql|
    ensures i <= e <= |sql|
    decreases |sql| - i
  {
    if WordAt(sql, i) then WordEnd(sql, i + 1) else i
  }

  /** The end of a quoted text from `j` inside it; a backslash escapes, except in backticks. */
  function QuotedEnd(sql: string, j: nat, quote: char): (e: nat)
    requires j <= |sql|
    ensures j <= e <= |sql|
    decreases |sql| - j
  {
    if j == |sql| then j
    else if sql[j] == '\\' && quote != '`' then (if j + 2 <= |sql| then QuotedEnd(sql, j + 2, quote) else |sql|)
    else if sql[j] != quote then QuotedEnd(sql, j + 1, quote)
    else if j + 1 < |sql| && sql[j + 1] == quote then QuotedEnd(sql, j + 2, quote)
    else j + 1
  }

  predicate LineCommentAt(sql: string, i: nat) {
    i < |sql| &&
    (sql[i] == '#' || (i + 1 < |sql| && sql[i] == '-' && sql[i + 1] == '-' && (i + 2 >= |sql| || IsSpace(sql[i + 2]))))
  }

  predicate BlockCommentAt(sql: string, i: nat) { i + 1 < |sql| && sql[i] == '/' && sql[i + 1] == '*' }

  function BlockCommentEnd(sql: string, i: nat): (e: nat)
    requires i + 2 <= |sql|
    ensures i + 2 <= e <= |sql|
  {
    var close := IndexOf(sql, "*/", i + 2);
    if close == -1 then |sql| else close + 2
  }

  function LineFrom(sql: string, i: nat): (e: nat)
    requires LineCommentAt(sql, i)
    ensures i < e <= |sql|
  {
    LineEnd(sql, i)
  }

  function WordIn(sql: string, start: nat, end: nat): Sym
    requires start <= end <= |sql|
  {
    Word(KeywordOf(Upper(sql[start..end])))
  }

  function MarkAt(sql: string, i: nat): Sym
    requires i < |sql|
  {
    Punct(sql[i], i + 1 < |sql| && sql[i + 1] == '=')
  }

  /** Where the blank or comment at `i` ends, if there is one there. */
  function GapEnd(sql: string, i: nat): (e: Option<nat>)
    requires i < |sql|
    ensures e.Some? ==> i < e.value <= |sql|
  {
    if IsSpace(sql[i]) then Some(i + 1)
    else if LineCommentAt(sql, i) then Some(LineFrom(sql, i))
    else if BlockCommentAt(sql, i) && !(i + 2 < |sql| && sql[i + 2] == '!') then Some(BlockCommentEnd(sql, i))
    else None
  }

  /** The token that starts at `i`. */
  function TokenAt(sql: string, i: nat): (t: Token)
    requires i < |sql|
    ensures t.start == i < t.end <= |sql|
  {
    if BlockCommentAt(sql, i) then Token(Versioned, i, BlockCommentEnd(sql, i))
    else if IsQuote(sql[i]) then Token(Quoted, i, QuotedEnd(sql, i + 1, sql[i]))
    else if sql[i] == ';' then Token(Semi, i, i + 1)
    else if WordAt(sql, i) then Token(WordIn(sql, i, WordEnd(sql, i + 1)), i, WordEnd(sql, i + 1))
    else Token(MarkAt(sql, i), i, i + 1)
  }

  /** What is read from `i` on; none at the end of the script. */
  function NextToken(sql: string, i: nat): (t: Option<Token>)
    requires i <= |sql|
    ensures t.Some? ==> i <= t.value.start < t.value.end <= |sql|
    decreases |sql| - i
  {
    if i == |sql| then None
    else
      var gap := GapEnd(sql, i);
      if gap.Some? then NextToken(sql, gap.value) else Some(TokenAt(sql, i))
  }

  method ReadQuoted(sql: string, start: nat) returns (end: nat)
    requires start < |sql|
    ensures end == QuotedEnd(sql, start + 1, sql[start])
  {
    var ch := sql[start];
    var j := start + 1;
    while j < |sql|
      invariant start < j <= |sql| + 1
      invariant QuotedEnd(sql, if j <= |sql| then j else |sql|, ch) == QuotedEnd(sql, start + 1, ch)
    {
      if sql[j] == '\\' && ch != '`' {
        j := j + 2;
      } else if sql[j] == ch && j + 1 < |sql| && sql[j + 1] == ch {
        j := j + 2;
      } else if sql[j] == ch {
        return j + 1;
      } else {
        j := j + 1;
      }
    }
    end := |sql|;
  }

  method ReadWord(sql: string, start: nat) returns (end: nat)
    requires start < |sql|
    ensures end == WordEnd(sql, start + 1)
  {
    end := start + 1;
    while WordAt(sql, end)
      invariant start < end <= |sql|
      invariant WordEnd(sql, end) == WordEnd(sql, start + 1)
      decreases |sql| - end
    {
      end := end + 1;
    }
  }

  /** Reads up to a token and over it. */
  method ReadToken(sql: string, from: nat) returns (t: Option<Token>)
    requires from <= |sql|
    ensures t == NextToken(sql, from)
  {
    var i := from;
    while i < |sql|
      invariant from <= i <= |sql|
      invariant NextToken(sql, i) == NextToken(sql, from)
    {
      if IsSpace(sql[i]) {
        i := i + 1;
      } else if LineCommentAt(sql, i) {
        i := LineFrom(sql, i);
      } else if BlockCommentAt(sql, i) {
        var end := BlockCommentEnd(sql, i);
        if i + 2 < |sql| && sql[i + 2] == '!' { return Some(Token(Versioned, i, end)); }
        i := end;
      } else if IsQuote(sql[i]) {
        var end := ReadQuoted(sql, i);
        return Some(Token(Quoted, i, end));
      } else if sql[i] == ';' {
        return Some(Token(Semi, i, i + 1));
      } else if WordAt(sql, i) {
        var end := ReadWord(sql, i);
        return Some(Token(WordIn(sql, i, end), i, end));
      } else {
        return Some(Token(MarkAt(sql, i), i, i + 1));
      }
    }
    t := None;
  }

  /** A token does not start with a blank. */
  lemma {:induction false} TokenStartsWithText(sql: string, i: nat)
    requires i <= |sql| && NextToken(sql, i).Some?
    ensures !IsSpace(sql[NextToken(sql, i).value.start])
    decreases |sql| - i
  {
    var gap := GapEnd(sql, i);
    if gap.Some? { TokenStartsWithText(sql, gap.value); }
  }
}

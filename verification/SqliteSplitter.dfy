/**
 * SQLite scripts: a semicolon cuts, unless it is one of those in the body of a trigger.
 * The specification reads a script as a list of tokens and says of each semicolon, from the tokens before it
 * in its statement, whether it separates; the scanner keeps the first four words and two flags instead.
 */
module SqliteLexer {
  import opened Text
  import opened Statements

  /** A token, as far as triggers go: names are words in upper case, or the character that opens a quoted name. */
  datatype Token = Semi | Name(text: string) | Mark

  /** What starts at a place of a script that is between tokens. */
  datatype Lexeme = Gap | Significant(token: Token)

  predicate WordStart(c: char) { IsLetter(c) || c == '_' || c >= '\U{80}' }

  predicate WordPart(c: char) { WordStart(c) || IsDigit(c) || c == '$' }

  predicate IsQuote(c: char) { c == '\'' || c == '"' || c == '`' }

  /** The end of a quoted text, from `i` inside it: the first quote that is not doubled. */
  function QuoteEnd(sql: string, i: nat, quote: char): (e: nat)
    requires i <= |sql|
    ensures i <= e <= |sql|
    decreases |sql| - i
  {
    if i == |sql| then i
    else if sql[i] != quote then QuoteEnd(sql, i + 1, quote)
    else if i + 1 < |sql| && sql[i + 1] == quote then QuoteEnd(sql, i + 2, quote)
    else i + 1
  }

  function WordEnd(sql: string, i: nat): (e: nat)
    requires i <= |sql|
    ensures i <= e <= |sql|
    decreases |sql| - i
  {
    if i < |sql| && WordPart(sql[i]) then WordEnd(sql, i + 1) else i
  }

  predicate LineCommentAt(sql: string, i: nat) { i + 1 < |sql| && sql[i] == '-' && sql[i + 1] == '-' }

  predicate BlockCommentAt(sql: string, i: nat) { i + 1 < |sql| && sql[i] == '/' && sql[i + 1] == '*' }

  /** One past the first `mark` from `i` on, or the end of the script. */
  function Past(sql: string, mark: string, i: nat): (e: nat)
    requires mark != "" && i <= |sql|
    ensures i <= e <= |sql| && (i < |sql| ==> i < e)
  {
    var found := IndexOf(sql, mark, i);
    if found == -1 then |sql| else found + |mark|
  }

  /** Where the lexeme at `i` ends. */
  function LexemeEnd(sql: string, i: nat): (e: nat)
    requires i < |sql|
    ensures i < e <= |sql|
  {
    if LineCommentAt(sql, i) then Past(sql, "\n", i)
    else if BlockCommentAt(sql, i) then Past(sql, "*/", i + 2)
    else if IsQuote(sql[i]) then QuoteEnd(sql, i + 1, sql[i])
    else if sql[i] == '[' then Past(sql, "]", i + 1)
    else if WordStart(sql[i]) then WordEnd(sql, i + 1)
    else i + 1
  }

  function LexemeAt(sql: string, i: nat): Lexeme
    requires i < |sql|
  {
    if LineCommentAt(sql, i) || BlockCommentAt(sql, i) then Gap
    else if IsQuote(sql[i]) || sql[i] == '[' then Significant(Name([sql[i]]))
    else if WordStart(sql[i]) then Significant(Name(Upper(sql[i..WordEnd(sql, i + 1)])))
    else if sql[i] == ';' then Significant(Semi)
    else if IsSpace(sql[i]) then Gap
    else Significant(Mark)
  }
}

module SqliteSplitter {
  import opened Text
  import opened Statements
  import opened SqliteLexer

  /** The tokens of a statement so far, the last one outermost. */
  datatype History = Empty | Then(before: History, last: Token)

  /** The names among the tokens, up to the fourth. */
  function FirstWords(h: History): (words: seq<string>)
    ensures |words| <= 4
  {
    match h
    case Empty => []
    case Then(before, last) =>
      var words := FirstWords(before);
      if last.Name? && |words| < 4 then words + [last.text] else words
  }

  /** `[EXPLAIN] CREATE [TEMP|TEMPORARY] TRIGGER` and at least one more word, if there is no EXPLAIN or TEMP. */
  predicate IsTrigger(words: seq<string>) {
    |words| >= 3 &&
    var rest := if words[0] == "EXPLAIN" then words[1..] else words;
    rest[0] == "CREATE" && (rest[1] == "TRIGGER"
      || ((rest[1] == "TEMP" || rest[1] == "TEMPORARY") && |rest| > 2 && rest[2] == "TRIGGER"))
  }

  predicate AfterSemi(h: History) { h.Then? && h.last == Semi }

  /** The last two tokens are a semicolon and `END`. */
  predicate AfterSemiEnd(h: History) { h.Then? && h.last == Name("END") && AfterSemi(h.before) }

  /** The closing rule of `sqlite3_complete`: whether a semicolon after these tokens ends their statement. */
  predicate Separates(h: History) { !IsTrigger(FirstWords(h)) || AfterSemiEnd(h) }

  /** The separating semicolons from `i` on, when `h` are the tokens of the statement before `i`. */
  ghost function Cuts(sql: string, i: nat, h: History): (cuts: set<nat>)
    requires i <= |sql|
    decreases |sql| - i
  {
    if i == |sql| then {}
    else
      var end := LexemeEnd(sql, i);
      match LexemeAt(sql, i)
      case Gap => Cuts(sql, end, h)
      case Significant(token) =>
        if token == Semi && Separates(h) then {i} + Cuts(sql, end, Empty) else Cuts(sql, end, Then(h, token))
  }

  ghost function SplitAtSeparators(sql: string): seq<Range> {
    SplitAt(sql, Cuts(sql, 0, Empty), HasStatementText)
  }

  lemma {:induction false} CutsComeLater(sql: string, i: nat, h: History, k: nat)
    requires i <= |sql| && k in Cuts(sql, i, h)
    ensures i <= k < |sql| && sql[k] == ';'
    decreases |sql| - i
  {
    var end := LexemeEnd(sql, i);
    match LexemeAt(sql, i)
    case Gap => CutsComeLater(sql, end, h, k);
    case Significant(token) =>
      if token == Semi && Separates(h) {
        if k != i { CutsComeLater(sql, end, Empty, k); }
      } else {
        CutsComeLater(sql, end, Then(h, token), k);
      }
  }

  // ----- a trigger, once it is one, stays one; until then its statement has no semicolon -----

  lemma TriggerStays(h: History, token: Token)
    requires IsTrigger(FirstWords(h))
    ensures IsTrigger(FirstWords(Then(h, token)))
  {
    var words := FirstWords(h);
    assert |words| < 4 && token.Name? ==> (words + [token.text])[1..] == words[1..] + [token.text];
  }

  /** A semicolon inside a statement means that the statement is a trigger. */
  ghost predicate SemicolonsInTriggersOnly(h: History)
    decreases h
  {
    h.Then? ==> SemicolonsInTriggersOnly(h.before) && (h.last == Semi ==> IsTrigger(FirstWords(h.before)))
  }

  lemma {:induction false} SemicolonMeansTrigger(h: History)
    requires SemicolonsInTriggersOnly(h) && (AfterSemi(h) || AfterSemiEnd(h))
    ensures IsTrigger(FirstWords(h))
  {
    if AfterSemi(h) {
      TriggerStays(h.before, Semi);
    } else {
      TriggerStays(h.before.before, Semi);
      TriggerStays(h.before, h.last);
    }
  }

  // ----- the scanner -----

  method SkipQuoted(sql: string, start: nat) returns (i: nat)
    requires start < |sql|
    ensures i == QuoteEnd(sql, start + 1, sql[start])
  {
    i := start + 1;
    while i < |sql|
      invariant start < i <= |sql|
      invariant QuoteEnd(sql, i, sql[start]) == QuoteEnd(sql, start + 1, sql[start])
    {
      if sql[i] == sql[start] && i + 1 < |sql| && sql[i + 1] == sql[start] {
        i := i + 2;
      } else if sql[i] == sql[start] {
        i := i + 1;
        break;
      } else {
        i := i + 1;
      }
    }
  }

  method SkipWord(sql: string, start: nat) returns (end: nat)
    requires start < |sql|
    ensures end == WordEnd(sql, start + 1)
  {
    end := start + 1;
    while end < |sql| && WordPart(sql[end])
      invariant start < end <= |sql|
      invariant WordEnd(sql, end) == WordEnd(sql, start + 1)
    {
      end := end + 1;
    }
  }

  /** `cuts` are, from `i` on, the separating semicolons of a script whose statement so far is `h`. */
  ghost predicate Ahead(sql: string, cuts: set<nat>, i: nat, h: History) {
    i <= |sql| && forall k: nat {:trigger k in cuts} :: i <= k ==> (k in cuts <==> k in Cuts(sql, i, h))
  }

  lemma AheadPastGap(sql: string, cuts: set<nat>, i: nat, h: History)
    requires i < |sql| && Ahead(sql, cuts, i, h) && LexemeAt(sql, i).Gap?
    ensures Ahead(sql, cuts, LexemeEnd(sql, i), h)
    ensures forall k: nat :: i <= k < LexemeEnd(sql, i) ==> k !in cuts
  {
    var end := LexemeEnd(sql, i);
    assert Cuts(sql, i, h) == Cuts(sql, end, h);
    forall k: nat | i <= k < end ensures k !in cuts {
      if k in cuts { CutsComeLater(sql, end, h, k); }
    }
  }

  lemma AheadPastToken(sql: string, cuts: set<nat>, i: nat, h: History, token: Token)
    requires i < |sql| && Ahead(sql, cuts, i, h) && LexemeAt(sql, i) == Significant(token)
    ensures i in cuts <==> token == Semi && Separates(h)
    ensures Ahead(sql, cuts, LexemeEnd(sql, i), if token == Semi && Separates(h) then Empty else Then(h, token))
    ensures forall k: nat :: i < k < LexemeEnd(sql, i) ==> k !in cuts
  {
    var end := LexemeEnd(sql, i);
    var next := if token == Semi && Separates(h) then Empty else Then(h, token);
    assert Cuts(sql, i, h) == (if token == Semi && Separates(h) then {i} else {}) + Cuts(sql, end, next);
    forall k: nat | i <= k < end ensures k in cuts <==> k == i && token == Semi && Separates(h) {
      if k in Cuts(sql, end, next) { CutsComeLater(sql, end, next, k); }
    }
  }

  /** What the scanner remembers of a statement, against its tokens. */
  ghost predicate Remembers(words: seq<string>, afterSemi: bool, afterEnd: bool, h: History) {
    && SemicolonsInTriggersOnly(h)
    && words == FirstWords(h)
    && afterSemi == AfterSemi(h)
    && afterEnd == AfterSemiEnd(h)
  }

  /** Reads a name: the flags say what the history says. A quoted name resets them always, a word in a trigger only. */
  method ReadName(words: seq<string>, afterSemi: bool, afterEnd: bool, name: string, isWord: bool, ghost h: History)
    returns (words': seq<string>, afterSemi': bool, afterEnd': bool)
    requires Remembers(words, afterSemi, afterEnd, h) && (isWord || |name| == 1)
    ensures Remembers(words', afterSemi', afterEnd', Then(h, Name(name)))
  {
    words', afterSemi', afterEnd' := words, afterSemi, afterEnd;
    if |words'| < 4 { words' := words' + [name]; }
    if AfterSemi(h) || AfterSemiEnd(h) {
      SemicolonMeansTrigger(h);
      TriggerStays(h, Name(name));
    }
    if !isWord {
      afterSemi', afterEnd' := false, false;
    } else if IsTrigger(words') {
      if name == "END" && afterSemi {
        afterSemi', afterEnd' := false, true;
      } else {
        afterSemi', afterEnd' := false, false;
      }
    }
  }

  /** `ranges` are the pieces before `start`, and what is read next, at `i`, comes after the tokens `h`. */
  ghost predicate Reading(sql: string, ranges: seq<Range>, start: nat, i: nat, cuts: set<nat>, keep: string -> bool,
      h: History) {
    Ahead(sql, cuts, i, h) && Done(sql, ranges, start, i, cuts, keep)
  }

  lemma ReadGap(sql: string, ranges: seq<Range>, start: nat, i: nat, cuts: set<nat>, keep: string -> bool, h: History)
    requires Reading(sql, ranges, start, i, cuts, keep, h) && i < |sql| && LexemeAt(sql, i).Gap?
    ensures Reading(sql, ranges, start, LexemeEnd(sql, i), cuts, keep, h)
  {
    AheadPastGap(sql, cuts, i, h);
    DoneSkip(sql, ranges, start, i, LexemeEnd(sql, i), cuts, keep);
  }

  lemma ReadToken(sql: string, ranges: seq<Range>, start: nat, i: nat, cuts: set<nat>, keep: string -> bool,
      h: History, token: Token)
    requires Reading(sql, ranges, start, i, cuts, keep, h) && i < |sql| && LexemeAt(sql, i) == Significant(token)
    requires token != Semi || !Separates(h)
    ensures Reading(sql, ranges, start, LexemeEnd(sql, i), cuts, keep, Then(h, token))
  {
    AheadPastToken(sql, cuts, i, h, token);
    DoneSkip(sql, ranges, start, i, LexemeEnd(sql, i), cuts, keep);
  }

  method ReadSeparator(sql: string, ranges: seq<Range>, start: nat, i: nat, ghost cuts: set<nat>, keep: string -> bool,
      ghost h: History)
    returns (pushed: seq<Range>)
    requires Reading(sql, ranges, start, i, cuts, keep, h) && i < |sql| && LexemeAt(sql, i) == Significant(Semi)
    requires Separates(h)
    ensures Reading(sql, pushed, i + 1, i + 1, cuts, keep, Empty)
  {
    AheadPastToken(sql, cuts, i, h, Semi);
    assert LexemeEnd(sql, i) == i + 1;
    pushed := CutAt(sql, ranges, start, i, cuts, keep);
  }

  /** Past a comment, a quoted or bracketed name, a word or any other character. */
  method SkipLexeme(sql: string, i: nat) returns (end: nat)
    requires i < |sql|
    ensures i < end == LexemeEnd(sql, i)
  {
    if LineCommentAt(sql, i) {
      var found := IndexOf(sql, "\n", i);
      end := if found == -1 then |sql| else found + 1;
    } else if BlockCommentAt(sql, i) {
      var found := IndexOf(sql, "*/", i + 2);
      end := if found == -1 then |sql| else found + 2;
    } else if IsQuote(sql[i]) {
      end := SkipQuoted(sql, i);
    } else if sql[i] == '[' {
      var found := IndexOf(sql, "]", i + 1);
      end := if found == -1 then |sql| else found + 1;
    } else if WordStart(sql[i]) {
      end := SkipWord(sql, i);
    } else {
      end := i + 1;
    }
  }

  /** Cuts at the semicolons that separate. */
  method Scan(sql: string, keep: string -> bool) returns (ranges: seq<Range>)
    ensures ranges == SplitAt(sql, Cuts(sql, 0, Empty), keep)
  {
    ranges := [];
    var start: nat, i: nat := 0, 0;
    var words: seq<string> := [];
    var afterSemi, afterEnd := false, false;
    ghost var cuts := Cuts(sql, 0, Empty);
    ghost var h := Empty;
    while i < |sql|
      invariant start <= i <= |sql|
      invariant Remembers(words, afterSemi, afterEnd, h)
      invariant Reading(sql, ranges, start, i, cuts, keep, h)
      decreases |sql| - i
    {
      var end := SkipLexeme(sql, i);
      match LexemeAt(sql, i) {
      case Gap =>
        ReadGap(sql, ranges, start, i, cuts, keep, h);
      case Significant(Semi) =>
        if IsTrigger(words) && !afterEnd {
          ReadToken(sql, ranges, start, i, cuts, keep, h, Semi);
          afterSemi, afterEnd, h := true, false, Then(h, Semi);
        } else {
          ranges := ReadSeparator(sql, ranges, start, i, cuts, keep, h);
          start, words, afterSemi, afterEnd, h := i + 1, [], false, false, Empty;
          assert end == i + 1;
        }
      case Significant(Name(name)) =>
        ReadToken(sql, ranges, start, i, cuts, keep, h, Name(name));
        words, afterSemi, afterEnd := ReadName(words, afterSemi, afterEnd, name, WordStart(sql[i]), h);
        h := Then(h, Name(name));
      case Significant(Mark) =>
        ReadToken(sql, ranges, start, i, cuts, keep, h, Mark);
        afterSemi, afterEnd, h := false, false, Then(h, Mark);
      }
      i := end;
    }
    ranges := EndAt(sql, ranges, start, cuts, keep);
  }

  method SplitSqlite(sql: string) returns (ranges: seq<Range>)
    ensures ranges == SplitAtSeparators(sql)
  {
    ranges := Scan(sql, HasStatementText);
  }
}

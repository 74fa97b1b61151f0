/**
 * PostgreSQL's statements end at the semicolons that are code. What is code is said by `Step`, an automaton
 * that reads a script one character at a time, with no lookahead; `Splitter` is the scanner, which
 * looks ahead and jumps from one lexical element to the next.
 */
module PostgresLexer {
  import opened Text

  /** What the character before says about an `E'` string or a dollar quote that might start here. */
  datatype Prev = Other | Word | LoneE | Dollar

  /** The lexical states of section 4.1 of the PostgreSQL manual. */
  datatype Lex =
    | Code(prev: Prev)
    | Dash                                       // code, after a `-` that may start a comment
    | Slash                                      // code, after a `/` that may start a comment
    | Line                                       // in a `--` comment
    | Block(depth: nat)                          // in a block comment
    | BlockSlash(depth: nat)                     // … after a `/`
    | BlockStar(depth: nat)                      // … after a `*`
    | Quoted(quote: char, escapes: bool)         // in a string or a quoted name
    | Escaped(quote: char)                       // … after a backslash, in an `E'` string
    | MaybeClosed(quote: char, escapes: bool)    // code, unless the quote that was just read is doubled
    | Tag(open: string)                          // code, after a `$` that may start a dollar quote
    | Body(tag: string, seen: string)            // in a dollar-quoted body

  const START := Code(Other)

  predicate InCode(s: Lex) { s.Code? || s.Dash? || s.Slash? || s.MaybeClosed? || s.Tag? }

  predicate WordBefore(p: Prev) { p == Word || p == LoneE }

  function NextPrev(p: Prev, c: char): Prev {
    if c == '$' then Dollar
    else if c == 'e' || c == 'E' then (if p == Other then LoneE else Word)
    else if IsWord(c) then Word
    else Other
  }

  function PrevOf(s: Lex): Prev {
    match s
    case Code(p) => p
    case Tag(open) => if |open| <= 1 then Dollar else Word
    case _ => Other
  }

  function CodeStep(p: Prev, c: char): Lex {
    if c == '-' then Dash
    else if c == '/' then Slash
    else if c == '\'' then Quoted(c, p == LoneE)
    else if c == '"' then Quoted(c, false)
    else if c == '$' && !WordBefore(p) then Tag("$")
    else Code(NextPrev(p, c))
  }

  function BlockStep(depth: nat, c: char): Lex {
    if c == '/' then BlockSlash(depth) else if c == '*' then BlockStar(depth) else Block(depth)
  }

  predicate TagChar(open: string, c: char) { IsLetter(c) || c == '_' || (|open| > 1 && IsDigit(c)) }

  predicate EndsWith(s: string, end: string) {
    |end| <= |s| && forall k {:trigger end[k]} :: 0 <= k < |end| ==> s[|s| - |end| + k] == end[k]
  }

  function Step(s: Lex, c: char): Lex {
    match s
    case Code(p) => CodeStep(p, c)
    case Dash => if c == '-' then Line else CodeStep(Other, c)
    case Slash => if c == '*' then Block(1) else CodeStep(Other, c)
    case Line => if c == '\n' then Code(Other) else Line
    case Block(d) => BlockStep(d, c)
    case BlockSlash(d) => if c == '*' then Block(d + 1) else BlockStep(d, c)
    case BlockStar(d) => if c != '/' then BlockStep(d, c) else if d <= 1 then Code(Other) else Block(d - 1)
    case Quoted(q, e) => if e && c == '\\' then Escaped(q) else if c == q then MaybeClosed(q, e) else s
    case Escaped(q) => Quoted(q, true)
    case MaybeClosed(q, e) => if c == q then Quoted(q, e) else CodeStep(Other, c)
    case Tag(open) =>
      if c == '$' then Body(open + "$", "")
      else if TagChar(open, c) then Tag(open + [c])
      else CodeStep(PrevOf(s), c)
    case Body(tag, seen) => if EndsWith(seen + [c], tag) then Code(Dollar) else Body(tag, seen + [c])
  }
}

module PostgresSplitter {
  import opened Text
  import opened Statements
  import opened Automata
  import opened PostgresLexer

  ghost predicate IsPostgres(m: Automaton<Lex>) {
    && m.start == START
    && (forall s, c {:trigger Step(s, c)} :: m.step(s, c) == Step(s, c))
    && (forall s {:trigger InCode(s)} :: m.code(s) == InCode(s))
  }

  /** The automaton, known by what it does: its step is looked up only where a proof speaks of `Step`. */
  ghost function Postgres(): (m: Automaton<Lex>)
    ensures IsPostgres(m)
  {
    assert IsPostgres(Automaton(START, Step, InCode));
    var m :| IsPostgres(m);
    m
  }

  /** The ranges of a script: its pieces between the semicolons that are code, without those that are only comments. */
  ghost function SplitAtCode(sql: string): seq<Range> { Split(Postgres(), sql, HasStatementText) }

  // ----- the scanner's view of the state -----

  /** What the one or two characters before `i` say, as the scanner reads them. */
  function PrevAt(sql: string, i: nat): Prev
    requires i <= |sql|
  {
    if i == 0 then Other
    else if sql[i - 1] == '$' then Dollar
    else if sql[i - 1] == 'e' || sql[i - 1] == 'E' then
      (if i >= 2 && (IsWord(sql[i - 2]) || sql[i - 2] == '$') then Word else LoneE)
    else if IsWord(sql[i - 1]) then Word
    else Other
  }

  function WordEnd(sql: string, i: nat): (e: nat)
    requires i <= |sql|
    ensures i <= e <= |sql|
    decreases |sql| - i
  {
    if i < |sql| && IsWord(sql[i]) then WordEnd(sql, i + 1) else i
  }

  lemma {:induction false} WordUpToWordEnd(sql: string, i: nat)
    requires i <= |sql|
    ensures forall k :: i <= k < WordEnd(sql, i) ==> IsWord(sql[k])
    decreases |sql| - i
  {
    if i < |sql| && IsWord(sql[i]) { WordUpToWordEnd(sql, i + 1); }
  }

  /** The end of a match of `\$([A-Za-z_][A-Za-z0-9_]*)?\$` at `i`. */
  function DollarTagEnd(sql: string, i: nat): (e: Option<nat>)
    requires i < |sql| && sql[i] == '$'
    ensures e.Some? ==> i + 2 <= e.value <= |sql|
  {
    if i + 1 < |sql| && sql[i + 1] == '$' then Some(i + 2)
    else if i + 1 < |sql| && (IsLetter(sql[i + 1]) || sql[i + 1] == '_') then
      var e := WordEnd(sql, i + 2);
      if e < |sql| && sql[e] == '$' then Some(e + 1) else None
    else None
  }

  /** A `$` before `i` that starts no dollar quote, with the rest of what could have been its tag. */
  ghost predicate FailedTag(sql: string, i: nat, open: string)
    requires i <= |sql|
  {
    && 1 <= |open| <= i
    && sql[i - |open|..i] == open
    && open[0] == '$'
    && (forall k :: 1 <= k < |open| ==> IsWord(open[k]))
    && (|open| > 1 ==> !IsDigit(open[1]))
    && DollarTagEnd(sql, i - |open|).None?
  }

  /** The state at a place where the scanner starts a lexical element: nothing that is pending comes true. */
  ghost predicate Ready(sql: string, i: nat, s: Lex)
    requires i <= |sql|
  {
    && InCode(s)
    && PrevOf(s) == PrevAt(sql, i)
    && (s.Tag? ==> FailedTag(sql, i, s.open))
    && (i < |sql| ==>
      (s.Dash? ==> sql[i] != '-') && (s.Slash? ==> sql[i] != '*') && (s.MaybeClosed? ==> sql[i] != s.quote))
  }

  lemma FailedTagStep(sql: string, i: nat, open: string)
    requires i < |sql| && FailedTag(sql, i, open)
    ensures sql[i] != '$'
    ensures TagChar(open, sql[i]) ==> FailedTag(sql, i + 1, open + [sql[i]])
  {
    var d := i - |open|;
    assert forall k :: d <= k < i ==> sql[k] == open[k - d];
    if TagChar(open, sql[i]) {
      assert sql[d..i + 1] == open + [sql[i]];
    }
    if sql[i] == '$' && |open| > 1 {
      WordEndIs(sql, d + 2, i);
    }
  }

  lemma {:induction false} WordEndIs(sql: string, i: nat, e: nat)
    requires i <= e <= |sql|
    requires forall k :: i <= k < e ==> IsWord(sql[k])
    requires e < |sql| ==> !IsWord(sql[e])
    ensures WordEnd(sql, i) == e
    decreases e - i
  {
    if i < e { WordEndIs(sql, i + 1, e); }
  }

  /** In a state that is ready, the next character means what it means in plain code. */
  lemma ReadyStep(sql: string, i: nat, s: Lex)
    requires i < |sql| && Ready(sql, i, s)
    ensures PrevAt(sql, i + 1) == NextPrev(PrevAt(sql, i), sql[i])
    ensures !IsWord(sql[i]) ==> Step(s, sql[i]) == CodeStep(PrevAt(sql, i), sql[i])
    ensures IsWord(sql[i]) ==> Ready(sql, i + 1, Step(s, sql[i]))
  {
    if s.Tag? { FailedTagStep(sql, i, s.open); }
  }

  /** A reader that was at `start` is at `i` in state `s`, past no cut. */
  ghost predicate Reads(sql: string, start: nat, i: nat, s: Lex) { Walked(Postgres(), sql, start, i, s) }

  lemma Read(sql: string, start: nat, i: nat, s: Lex, t: Lex)
    requires Reads(sql, start, i, s) && i < |sql| && t == Step(s, sql[i]) && (sql[i] != ';' || !InCode(s))
    ensures Reads(sql, start, i + 1, t)
  {
    Walk(Postgres(), sql, start, i, s, t);
  }

  lemma {:induction false} ReadLine(sql: string, start: nat, i: nat, end: nat)
    requires Reads(sql, start, i, Line)
    requires i <= end <= |sql| && forall k :: i <= k < end ==> sql[k] != '\n'
    ensures Reads(sql, start, end, Line)
    decreases end - i
  {
    if i < end {
      Read(sql, start, i, Line, Line);
      ReadLine(sql, start, i + 1, end);
    }
  }

  lemma {:induction false} ReadTag(sql: string, start: nat, d: nat, i: nat, end: nat)
    requires d < i < end <= |sql| && sql[end - 1] == '$' && Reads(sql, start, i, Tag(sql[d..i]))
    requires forall k :: d < k < end - 1 ==> IsWord(sql[k])
    requires d + 1 < end - 1 ==> !IsDigit(sql[d + 1])
    ensures Reads(sql, start, end, Body(sql[d..end], ""))
    decreases end - i
  {
    assert sql[d..i] + [sql[i]] == sql[d..i + 1];
    if i < end - 1 {
      Read(sql, start, i, Tag(sql[d..i]), Tag(sql[d..i + 1]));
      ReadTag(sql, start, d, i + 1, end);
    } else {
      Read(sql, start, i, Tag(sql[d..i]), Body(sql[d..end], ""));
    }
  }

  /** A body ends with its tag exactly where the tag is found again. */
  lemma EndsWithTag(sql: string, tag: string, body: nat, end: nat)
    requires tag != "" && body < end <= |sql|
    ensures EndsWith(sql[body..end - 1] + [sql[end - 1]], tag)
      <==> body + |tag| <= end && MatchAt(sql, tag, end - |tag|)
  {
    var seen := sql[body..end - 1] + [sql[end - 1]];
    if |tag| <= |seen| {
      assert forall k {:trigger tag[k]} :: 0 <= k < |tag| ==> seen[|seen| - |tag| + k] == sql[end - |tag| + k];
    }
  }

  lemma {:induction false} ReadBody(sql: string, start: nat, i: nat, tag: string, body: nat, end: nat)
    requires tag != "" && body <= i <= end <= |sql| && Reads(sql, start, i, Body(tag, sql[body..i]))
    requires forall k: nat :: body <= k && k + |tag| <= end ==> !MatchAt(sql, tag, k)
    ensures Reads(sql, start, end, Body(tag, sql[body..end]))
    decreases end - i
  {
    if i < end {
      var seen := sql[body..i] + [sql[i]];
      assert seen == sql[body..i + 1];
      EndsWithTag(sql, tag, body, i + 1);
      Read(sql, start, i, Body(tag, sql[body..i]), Body(tag, seen));
      ReadBody(sql, start, i + 1, tag, body, end);
    }
  }

  /** The closing tag of a dollar-quoted body, from the first place that reads like it. */
  lemma ReadClosedBody(sql: string, start: nat, tag: string, body: nat, close: nat)
    requires tag != "" && body <= close && MatchAt(sql, tag, close)
    requires Reads(sql, start, body, Body(tag, ""))
    requires forall k: nat :: body <= k < close ==> !MatchAt(sql, tag, k)
    ensures Reads(sql, start, close + |tag|, Code(Dollar))
  {
    var last := close + |tag| - 1;
    assert sql[body..body] == "";
    ReadBody(sql, start, body, tag, body, last);
    EndsWithTag(sql, tag, body, last + 1);
    Read(sql, start, last, Body(tag, sql[body..last]), Code(Dollar));
  }

  // ----- the scanner -----

  /** Past a `--` comment and its line feed. */
  method SkipLineComment(sql: string, i: nat, ghost s: Lex) returns (j: nat, ghost t: Lex)
    requires i + 1 < |sql| && sql[i] == '-' && sql[i + 1] == '-' && Ready(sql, i, s) && Reads(sql, i, i, s)
    ensures i < j <= |sql| && Reads(sql, i, j, t) && (j < |sql| ==> Ready(sql, j, t))
  {
    ReadyStep(sql, i, s);
    Read(sql, i, i, s, Dash);
    Read(sql, i, i + 1, Dash, Line);
    var end := LineEnd(sql, i + 2);
    NoLineFeedBeforeLineEnd(sql, i + 2);
    ReadLine(sql, i, i + 2, end);
    j, t := end, Line;
    if end < |sql| {
      Read(sql, i, end, Line, Code(Other));
      j, t := end + 1, Code(Other);
    }
  }

  /** Inside a block comment: what was read last does not open or close with what comes next. */
  ghost predicate BlockReady(sql: string, i: nat, s: Lex, depth: nat)
    requires i <= |sql|
  {
    && depth > 0
    && (s == Block(depth) || s == BlockSlash(depth) || s == BlockStar(depth))
    && (i < |sql| ==> (s.BlockSlash? ==> sql[i] != '*') && (s.BlockStar? ==> sql[i] != '/'))
  }

  /** One more element of a block comment: an opening, a closing, any other character. */
  lemma ReadInBlock(sql: string, start: nat, i: nat, t: Lex, depth: nat)
    requires i < |sql| && BlockReady(sql, i, t, depth) && Reads(sql, start, i, t)
    ensures Reads(sql, start, i + 1, BlockStep(depth, sql[i]))
    ensures i + 1 < |sql| && sql[i] == '/' && sql[i + 1] == '*' ==> Reads(sql, start, i + 2, Block(depth + 1))
    ensures i + 1 < |sql| && sql[i] == '*' && sql[i + 1] == '/' ==>
      Reads(sql, start, i + 2, if depth == 1 then Code(Other) else Block(depth - 1))
  {
    var u := BlockStep(depth, sql[i]);
    Read(sql, start, i, t, u);
    if i + 1 < |sql| && sql[i] == '/' && sql[i + 1] == '*' {
      Read(sql, start, i + 1, u, Block(depth + 1));
    } else if i + 1 < |sql| && sql[i] == '*' && sql[i + 1] == '/' {
      Read(sql, start, i + 1, u, if depth == 1 then Code(Other) else Block(depth - 1));
    }
  }

  /** Past a block comment, which nests. */
  method SkipBlockComment(sql: string, start: nat, ghost s: Lex) returns (i: nat, ghost t: Lex)
    requires start + 1 < |sql| && sql[start] == '/' && sql[start + 1] == '*' && Ready(sql, start, s)
    requires Reads(sql, start, start, s)
    ensures start < i <= |sql| && Reads(sql, start, i, t) && (i < |sql| ==> Ready(sql, i, t))
  {
    ReadyStep(sql, start, s);
    Read(sql, start, start, s, Slash);
    Read(sql, start, start + 1, Slash, Block(1));
    var depth: nat := 1;
    i, t := start + 2, Block(1);
    while i < |sql| && depth > 0
      invariant start < i <= |sql| && Reads(sql, start, i, t)
      invariant if depth == 0 then t == Code(Other) && sql[i - 1] == '/' else BlockReady(sql, i, t, depth)
      decreases |sql| - i
    {
      ReadInBlock(sql, start, i, t, depth);
      if i + 1 < |sql| && sql[i] == '/' && sql[i + 1] == '*' {
        depth := depth + 1;
        i, t := i + 2, Block(depth);
      } else if i + 1 < |sql| && sql[i] == '*' && sql[i + 1] == '/' {
        depth := depth - 1;
        i, t := i + 2, if depth == 0 then Code(Other) else Block(depth);
      } else {
        t := BlockStep(depth, sql[i]);
        i := i + 1;
      }
    }
  }

  function AtMost(i: nat, n: nat): nat { if i <= n then i else n }

  /** One more element of a string or a quoted name: an escaped character, a doubled quote, any other character. */
  lemma ReadInQuotes(sql: string, start: nat, i: nat, ch: char, escapes: bool)
    requires i < |sql| && (ch == '\'' || ch == '"') && Reads(sql, start, i, Quoted(ch, escapes))
    ensures escapes && sql[i] == '\\' && i + 1 < |sql| ==> Reads(sql, start, i + 2, Quoted(ch, escapes))
    ensures escapes && sql[i] == '\\' && i + 1 == |sql| ==> Reads(sql, start, i + 1, Escaped(ch))
    ensures sql[i] == ch ==> Reads(sql, start, i + 1, MaybeClosed(ch, escapes))
    ensures sql[i] == ch && i + 1 < |sql| && sql[i + 1] == ch ==> Reads(sql, start, i + 2, Quoted(ch, escapes))
    ensures sql[i] != ch && !(escapes && sql[i] == '\\') ==> Reads(sql, start, i + 1, Quoted(ch, escapes))
  {
    if escapes && sql[i] == '\\' {
      Read(sql, start, i, Quoted(ch, escapes), Escaped(ch));
      if i + 1 < |sql| { Read(sql, start, i + 1, Escaped(ch), Quoted(ch, escapes)); }
    } else if sql[i] == ch {
      Read(sql, start, i, Quoted(ch, escapes), MaybeClosed(ch, escapes));
      if i + 1 < |sql| && sql[i + 1] == ch { Read(sql, start, i + 1, MaybeClosed(ch, escapes), Quoted(ch, escapes)); }
    } else {
      Read(sql, start, i, Quoted(ch, escapes), Quoted(ch, escapes));
    }
  }

  /** Past a string or a quoted name; `i` ends one past the script when its last character is an escape. */
  method SkipQuoted(sql: string, start: nat, ghost s: Lex) returns (i: nat, ghost t: Lex)
    requires start < |sql| && (sql[start] == '\'' || sql[start] == '"') && Ready(sql, start, s)
    requires Reads(sql, start, start, s)
    ensures start < i <= |sql| + 1 && Reads(sql, start, AtMost(i, |sql|), t)
    ensures i < |sql| ==> Ready(sql, i, t)
  {
    var ch := sql[start];
    var escapes := ch == '\'' && PrevAt(sql, start) == LoneE;
    ReadyStep(sql, start, s);
    i, t := start + 1, Quoted(ch, escapes);
    Read(sql, start, start, s, t);
    while i < |sql|
      invariant start < i <= |sql| + 1 && Reads(sql, start, AtMost(i, |sql|), t)
      invariant i < |sql| ==> t == Quoted(ch, escapes)
    {
      ReadInQuotes(sql, start, i, ch, escapes);
      if escapes && sql[i] == '\\' {
        t := if i + 1 < |sql| then Quoted(ch, true) else Escaped(ch);
        i := i + 2;
      } else if sql[i] == ch && i + 1 < |sql| && sql[i + 1] == ch {
        i := i + 2;
      } else if sql[i] == ch {
        i, t := i + 1, MaybeClosed(ch, escapes);
        break;
      } else {
        i := i + 1;
      }
    }
  }

  lemma ReadOpeningTag(sql: string, i: nat, tagEnd: nat)
    requires i < |sql| && sql[i] == '$' && DollarTagEnd(sql, i) == Some(tagEnd) && Reads(sql, i, i + 1, Tag("$"))
    ensures Reads(sql, i, tagEnd, Body(sql[i..tagEnd], ""))
    ensures sql[i..tagEnd][tagEnd - i - 1] == '$'
  {
    if tagEnd > i + 2 { WordUpToWordEnd(sql, i + 2); }
    assert sql[i..i + 1] == "$";
    ReadTag(sql, i, i, i + 1, tagEnd);
  }

  /** A dollar-quoted body from its start to its closing tag, or to the end of the script. */
  lemma ReadToClosingTag(sql: string, i: nat, tag: string, body: nat, close: int, end: nat)
    requires tag != "" && tag[|tag| - 1] == '$' && body <= |sql| && Reads(sql, i, body, Body(tag, ""))
    requires close == IndexOf(sql, tag, body) && end == if close == -1 then |sql| else close + |tag|
    ensures close == -1 ==> Reads(sql, i, end, Body(tag, sql[body..]))
    ensures close != -1 ==> Reads(sql, i, end, Code(Dollar)) && sql[end - 1] == '$'
  {
    forall k: nat | body <= k && (close == -1 || k < close) ensures !MatchAt(sql, tag, k) {
      IndexOfIsFirst(sql, tag, body, k);
    }
    if close == -1 {
      assert sql[body..body] == "" && sql[body..|sql|] == sql[body..];
      ReadBody(sql, i, body, tag, body, |sql|);
    } else {
      ReadClosedBody(sql, i, tag, body, close);
      assert sql[close + (|tag| - 1)] == tag[|tag| - 1];
    }
  }

  lemma DollarAlone(sql: string, i: nat, s: Lex)
    requires i < |sql| && sql[i] == '$' && Ready(sql, i, s)
    requires DollarTagEnd(sql, i).None? || WordBefore(PrevAt(sql, i))
    ensures Ready(sql, i + 1, Step(s, '$'))
  {
    ReadyStep(sql, i, s);
    assert sql[i..i + 1] == "$";
  }

  lemma DollarOpens(sql: string, i: nat, s: Lex)
    requires i < |sql| && sql[i] == '$' && Ready(sql, i, s) && !WordBefore(PrevAt(sql, i))
    ensures Step(s, '$') == Tag("$")
  {
    ReadyStep(sql, i, s);
  }

  /** Past a dollar-quoted body, or past a `$` that starts none. */
  method SkipDollar(sql: string, i: nat, ghost s: Lex) returns (j: nat, ghost t: Lex)
    requires i < |sql| && sql[i] == '$' && Ready(sql, i, s) && Reads(sql, i, i, s)
    ensures i < j <= |sql| && Reads(sql, i, j, t) && (j < |sql| ==> Ready(sql, j, t))
  {
    var tagEnd := DollarTagEnd(sql, i);
    t := Step(s, '$');
    Read(sql, i, i, s, t);
    if tagEnd.Some? && !WordBefore(PrevAt(sql, i)) {
      DollarOpens(sql, i, s);
      var tag := sql[i..tagEnd.value];
      var close := IndexOf(sql, tag, tagEnd.value);
      j := if close == -1 then |sql| else close + |tag|;
      ReadOpeningTag(sql, i, tagEnd.value);
      ReadToClosingTag(sql, i, tag, tagEnd.value, close, j);
      t := if close == -1 then Body(tag, sql[tagEnd.value..]) else Code(Dollar);
    } else {
      DollarAlone(sql, i, s);
      j := i + 1;
    }
  }

  /** Past one lexical element that is not a semicolon of the code. */
  method SkipElement(sql: string, i: nat, ghost s: Lex) returns (j: nat, ghost t: Lex)
    requires i < |sql| && sql[i] != ';' && Ready(sql, i, s) && Reads(sql, i, i, s)
    ensures i < j <= |sql| + 1 && Reads(sql, i, AtMost(j, |sql|), t)
    ensures j < |sql| ==> Ready(sql, j, t)
  {
    var ch := sql[i];
    if ch == '-' && i + 1 < |sql| && sql[i + 1] == '-' {
      j, t := SkipLineComment(sql, i, s);
    } else if ch == '/' && i + 1 < |sql| && sql[i + 1] == '*' {
      j, t := SkipBlockComment(sql, i, s);
    } else if ch == '\'' || ch == '"' {
      j, t := SkipQuoted(sql, i, s);
    } else if ch == '$' {
      j, t := SkipDollar(sql, i, s);
    } else {
      j, t := i + 1, Step(s, ch);
      ReadyStep(sql, i, s);
      Read(sql, i, i, s, t);
    }
  }

  lemma CutsAtSemicolon(sql: string, i: nat, s: Lex)
    requires i < |sql| && sql[i] == ';' && Ready(sql, i, s) && At(Postgres(), sql, i, s)
    ensures i in Cuts(Postgres(), sql) && At(Postgres(), sql, i + 1, START) && Ready(sql, i + 1, START)
  {
    ReadyStep(sql, i, s);
    Advance(Postgres(), sql, i, s);
  }

  /** Cuts where the automaton is in code. */
  method SplitPostgres(sql: string) returns (ranges: seq<Range>)
    ensures ranges == SplitAtCode(sql)
  {
    ranges := [];
    ghost var cuts := Cuts(Postgres(), sql);
    var start: nat, i: nat := 0, 0;
    ghost var s := START;
    while i < |sql|
      invariant start <= i <= |sql| + 1
      invariant i < |sql| ==> Ready(sql, i, s)
      invariant At(Postgres(), sql, AtMost(i, |sql|), s)
      invariant Done(sql, ranges, start, AtMost(i, |sql|), cuts, HasStatementText)
      decreases |sql| + 1 - i
    {
      if sql[i] == ';' {
        CutsAtSemicolon(sql, i, s);
        ranges := CutAt(sql, ranges, start, i, cuts, HasStatementText);
        start := i + 1;
        i, s := i + 1, START;
      } else {
        var j;
        j, s := SkipElement(sql, i, s);
        DoneSkip(sql, ranges, start, i, AtMost(j, |sql|), cuts, HasStatementText);
        i := j;
      }
    }
    ranges := EndAt(sql, ranges, start, cuts, HasStatementText);
  }
}

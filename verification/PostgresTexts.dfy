/**
 * What PostgreSQL quotes (sections 4.1.2.1, 4.1.2.2 and 4.1.2.4 of its manual) and what it takes for comments is not
 * cut, and the statement ends behind it: strings, strings with escapes, quoted names, dollar-quoted bodies and
 * comments, for every text in them.
 */
module PostgresTexts {
  import opened Text
  import opened Statements
  import opened Automata
  import opened PostgresLexer
  import opened PostgresSplitter
  import opened PostgresStatements

  /** Nothing, or words and a blank. */
  predicate Words(before: string) {
    && (forall k :: 0 <= k < |before| ==> IsLetter(before[k]) || before[k] == ' ')
    && (before != "" ==> before[0] != ' ' && before[|before| - 1] == ' ')
  }

  predicate WordOrDollar(c: char) { IsWord(c) || c == '$' }

  predicate IsE(p: string) { p == "e" || p == "E" }

  /** Up to two word characters or `$` right before a quote. */
  predicate Prefix(p: string) {
    |p| <= 2 && (forall k :: 0 <= k < |p| ==> WordOrDollar(p[k])) && p != "$$"
  }

  /** With a backslash before every quote and backslash. */
  function Escaped(s: string): string {
    if s == "" then "" else (if s[0] == '\'' || s[0] == '\\' then ['\\', s[0]] else [s[0]]) + Escaped(s[1..])
  }

  /** The first statement of any script that goes on with a semicolon behind it, however the script goes on. */
  ghost predicate IsOneStatement(sql: string) {
    forall rest: string {:trigger sql + ";" + rest} ::
      SplitAtCode(sql + ";" + rest) == [Range(0, |sql|)] + Shift(SplitAtCode(rest), |sql| + 1)
  }

  lemma {:induction false} WholeIsKept(sql: string)
    requires sql != "" && !IsSpace(sql[0]) && sql[0] != '-' && sql[0] != '/' && !IsSpace(sql[|sql| - 1])
    ensures Piece(sql, 0, |sql|, HasStatementText) == Some(Range(0, |sql|))
  {
    MatchTwo(sql, "--", 0);
    MatchTwo(sql, "/*", 0);
    assert sql[0..|sql|] == sql;
  }

  lemma {:induction false} StatementIsWhole(sql: string, s: Lex)
    requires sql != "" && !IsSpace(sql[0]) && sql[0] != '-' && sql[0] != '/' && !IsSpace(sql[|sql| - 1])
    requires Reads(sql, 0, |sql|, s) && InCode(s)
    ensures IsOneStatement(sql)
  {
    forall rest: string {:trigger sql + ";" + rest}
      ensures SplitAtCode(sql + ";" + rest) == [Range(0, |sql|)] + Shift(SplitAtCode(rest), |sql| + 1)
    {
      SplitComposes(sql, rest);
      ChunksSkip(sql, 0, 0, |sql|, Cuts(Postgres(), sql), HasStatementText);
      WholeIsKept(sql);
    }
  }

  lemma ThreeParts(a: string, b: string, c: string, sql: string)
    requires sql == a + b + c
    ensures FoundAt(a, sql, 0) && FoundAt(b, sql, |a|) && FoundAt(c, sql, |a| + |b|)
    ensures |sql| == |a| + |b| + |c|
  {}

  /** A statement that starts with words, or with the mark or word character `c`. */
  lemma StartsWithText(sql: string, before: string, c: char)
    requires Words(before) && FoundAt(before, sql, 0) && |before| < |sql| && sql[|before|] == c
    requires WordOrDollar(c) || c == '\'' || c == '"'
    ensures !IsSpace(sql[0]) && sql[0] != '-' && sql[0] != '/'
  {
    if before != "" { assert sql[0 + 0] == before[0]; }
    NotSpace(sql[0]);
  }

  // ----- before the quote -----

  lemma {:induction false} ReadWords(sql: string, before: string, i: nat) returns (p: Prev)
    requires Words(before) && FoundAt(before, sql, 0) && i <= |before|
    ensures Reads(sql, 0, i, Code(p)) && (i == 0 || before[i - 1] == ' ' ==> p == Other)
  {
    p := Other;
    if i > 0 {
      var q := ReadWords(sql, before, i - 1);
      p := NextPrev(q, before[i - 1]);
      assert sql[0 + (i - 1)] == before[i - 1];
      Read(sql, 0, i - 1, Code(q), Code(p));
    }
  }

  /** The words and the prefix, up to the quote and over it. */
  lemma {:induction false} ReadUpToQuote(sql: string, before: string, p: string, q: char)
    requires Words(before) && Prefix(p) && (q == '\'' || q == '"')
    requires FoundAt(before, sql, 0) && FoundAt(p, sql, |before|)
    requires |before| + |p| < |sql| && sql[|before| + |p|] == q
    ensures Reads(sql, 0, |before| + |p| + 1, Quoted(q, q == '\'' && IsE(p)))
  {
    var n := |before|;
    var prev := ReadWords(sql, before, n);
    var s := Code(Other);
    if |p| > 0 {
      assert sql[n + 0] == p[0];
      Read(sql, 0, n, s, Step(s, p[0]));
      s := Step(s, p[0]);
    }
    if |p| > 1 {
      assert sql[n + 1] == p[1];
      Read(sql, 0, n + 1, s, Step(s, p[1]));
      s := Step(s, p[1]);
    }
    QuoteOpens(p, q);
    Read(sql, 0, n + |p|, s, Step(s, q));
  }

  function After(p: string): Lex
    requires |p| <= 2
  {
    var s := Code(Other);
    if |p| == 0 then s else if |p| == 1 then Step(s, p[0]) else Step(Step(s, p[0]), p[1])
  }

  lemma QuoteOpens(p: string, q: char)
    requires Prefix(p) && (q == '\'' || q == '"')
    ensures Step(After(p), q) == Quoted(q, q == '\'' && IsE(p))
  {
    if |p| == 1 { assert p == [p[0]]; }
    if |p| == 2 { assert p == [p[0], p[1]]; }
  }

  // ----- strings and quoted names -----

  lemma {:induction false} ReadEscaped(sql: string, i: nat, s: string)
    requires FoundAt(Escaped(s), sql, i) && Reads(sql, 0, i, Quoted('\'', true))
    ensures Reads(sql, 0, i + |Escaped(s)|, Quoted('\'', true))
    decreases |s|
  {
    if s != "" {
      var one := if s[0] == '\'' || s[0] == '\\' then ['\\', s[0]] else [s[0]];
      FoundInParts(one, Escaped(s[1..]), sql, i);
      assert sql[i + 0] == one[0];
      if |one| == 2 {
        assert sql[i + 1] == one[1];
        Read(sql, 0, i, Quoted('\'', true), PostgresLexer.Escaped('\''));
        Read(sql, 0, i + 1, PostgresLexer.Escaped('\''), Quoted('\'', true));
      } else {
        Read(sql, 0, i, Quoted('\'', true), Quoted('\'', true));
      }
      ReadEscaped(sql, i + |one|, s[1..]);
    }
  }

  lemma {:induction false} ReadDoubled(sql: string, i: nat, s: string, q: char)
    requires FoundAt(Double(s, q), sql, i) && Reads(sql, 0, i, Quoted(q, false)) && (q == '\'' || q == '"')
    ensures Reads(sql, 0, i + |Double(s, q)|, Quoted(q, false))
    decreases |s|
  {
    if s != "" {
      var one := if s[0] == q then [q, q] else [s[0]];
      FoundInParts(one, Double(s[1..], q), sql, i);
      assert sql[i + 0] == one[0];
      if |one| == 2 {
        assert sql[i + 1] == one[1];
        Read(sql, 0, i, Quoted(q, false), MaybeClosed(q, false));
        Read(sql, 0, i + 1, MaybeClosed(q, false), Quoted(q, false));
      } else {
        Read(sql, 0, i, Quoted(q, false), Quoted(q, false));
      }
      ReadDoubled(sql, i + |one|, s[1..], q);
    }
  }

  lemma PartsOfQuoted(before: string, p: string, q: char, body: string, sql: string)
    requires sql == before + p + [q] + body + [q]
    ensures FoundAt(before, sql, 0) && FoundAt(p, sql, |before|) && FoundAt(body, sql, |before| + |p| + 1)
    ensures |sql| == |before| + |p| + |body| + 2 && sql[|before| + |p|] == q && sql[|sql| - 1] == q
  {}

  /** A string or a quoted name with its text, read up to its last quote. */
  lemma CloseQuote(sql: string, before: string, p: string, q: char, escapes: bool)
    requires Words(before) && Prefix(p) && (q == '\'' || q == '"')
    requires FoundAt(before, sql, 0) && FoundAt(p, sql, |before|)
    requires |before| + |p| < |sql| - 1 && sql[|before| + |p|] == q && sql[|sql| - 1] == q
    requires Reads(sql, 0, |sql| - 1, Quoted(q, escapes))
    ensures IsOneStatement(sql)
  {
    if p != "" { assert sql[|before| + 0] == p[0]; }
    StartsWithText(sql, before, sql[|before|]);
    NotSpace(q);
    Read(sql, 0, |sql| - 1, Quoted(q, escapes), MaybeClosed(q, escapes));
    StatementIsWhole(sql, MaybeClosed(q, escapes));
  }

  /** In a string behind a lone `E` a backslash escapes, whatever the text is. */
  lemma {:induction false} EscapeStringIsWhole(before: string, p: string, s: string, sql: string)
    requires Words(before) && IsE(p)
    requires sql == before + p + ['\''] + Escaped(s) + ['\'']
    ensures IsOneStatement(sql)
  {
    PartsOfQuoted(before, p, '\'', Escaped(s), sql);
    ReadEscapeString(sql, before, p, s);
  }

  lemma {:induction false} ReadEscapeString(sql: string, before: string, p: string, s: string)
    requires Words(before) && IsE(p) && FoundAt(before, sql, 0) && FoundAt(p, sql, |before|)
    requires FoundAt(Escaped(s), sql, |before| + |p| + 1) && |sql| == |before| + |p| + |Escaped(s)| + 2
    requires sql[|before| + |p|] == '\'' && sql[|sql| - 1] == '\''
    ensures IsOneStatement(sql)
  {
    ReadUpToQuote(sql, before, p, '\'');
    ReadEscaped(sql, |before| + |p| + 1, s);
    CloseQuote(sql, before, p, '\'', true);
  }

  /**
   * In any other string, also one with a word character or a `$` before the `E`, and in a quoted name a backslash is a
   * character like others.
   */
  lemma {:induction false} PlainStringIsWhole(before: string, p: string, q: char, s: string, sql: string)
    requires Words(before) && Prefix(p) && (q == '"' || (q == '\'' && !IsE(p)))
    requires sql == before + p + [q] + Double(s, q) + [q]
    ensures IsOneStatement(sql)
  {
    PartsOfQuoted(before, p, q, Double(s, q), sql);
    ReadPlainString(sql, before, p, q, s);
  }

  lemma {:induction false} ReadPlainString(sql: string, before: string, p: string, q: char, s: string)
    requires Words(before) && Prefix(p) && (q == '"' || (q == '\'' && !IsE(p)))
    requires FoundAt(before, sql, 0) && FoundAt(p, sql, |before|)
    requires FoundAt(Double(s, q), sql, |before| + |p| + 1) && |sql| == |before| + |p| + |Double(s, q)| + 2
    requires sql[|before| + |p|] == q && sql[|sql| - 1] == q
    ensures IsOneStatement(sql)
  {
    ReadUpToQuote(sql, before, p, q);
    ReadDoubled(sql, |before| + |p| + 1, s, q);
    CloseQuote(sql, before, p, q, false);
  }

  // ----- dollar quotes -----

  /** Nothing, or a name without `$`. */
  predicate IsTag(t: string) { t != "" ==> !IsDigit(t[0]) && IsName(t) }

  predicate IsName(w: string) { forall k :: 0 <= k < |w| ==> IsWord(w[k]) }

  function Dollars(t: string): (tag: string)
    ensures |tag| == |t| + 2 && tag[0] == '$' && tag[|t| + 1] == '$'
    ensures forall k :: 0 <= k < |t| ==> tag[k + 1] == t[k]
  {
    "$" + t + "$"
  }

  /** In the body with the tag behind it, the tag is found nowhere before. */
  ghost predicate EndsAtItsTag(body: string, tag: string) {
    forall k: nat :: k < |body| ==> !MatchAt(body + tag, tag, k)
  }

  lemma {:induction false} ReadTagAt(sql: string, n: nat, tag: string, t: string)
    requires IsTag(t) && tag == Dollars(t) && FoundAt(tag, sql, n) && Reads(sql, 0, n, Code(Other))
    ensures Reads(sql, 0, n + |tag|, Body(tag, ""))
  {
    assert sql[n + 0] == tag[0];
    Read(sql, 0, n, Code(Other), Tag("$"));
    assert sql[n..n + 1] == "$";
    forall k | n <= k < n + |tag| ensures sql[k] == tag[k - n] { assert sql[n + (k - n)] == tag[k - n]; }
    assert sql[n..n + |tag|] == tag;
    forall k | n < k < n + |tag| - 1 ensures IsWord(sql[k]) { assert tag[(k - n - 1) + 1] == t[k - n - 1]; }
    if t != "" { assert tag[0 + 1] == t[0]; }
    ReadTag(sql, 0, n, n + 1, n + |tag|);
  }

  lemma {:induction false} NoTagBefore(sql: string, body: string, tag: string, d: nat, k: nat)
    requires EndsAtItsTag(body, tag) && FoundAt(body + tag, sql, d) && |sql| == d + |body| + |tag|
    requires d <= k < d + |body|
    ensures !MatchAt(sql, tag, k)
  {
    var own := body + tag;
    if MatchAt(sql, tag, k) {
      forall j {:trigger tag[j]} | 0 <= j < |tag| ensures own[k - d + j] == tag[j] {
        assert sql[k + j] == tag[j] && sql[d + (k - d + j)] == own[k - d + j];
      }
      assert MatchAt(own, tag, k - d);
    }
  }

  /** A body in dollar quotes goes up to its own tag, whatever is in it. */
  lemma {:induction false} DollarBodyIsWhole(before: string, t: string, body: string, sql: string)
    requires Words(before) && IsTag(t) && EndsAtItsTag(body, Dollars(t))
    requires sql == before + Dollars(t) + (body + Dollars(t))
    ensures IsOneStatement(sql)
  {
    var tag := Dollars(t);
    ThreeParts(before, tag, body + tag, sql);
    ReadBodyTo(sql, before, t, tag, body);
    StartsWithText(sql, before, '$');
    NotSpace('$');
    StatementIsWhole(sql, Code(Dollar));
  }

  lemma {:induction false} ReadBodyTo(sql: string, before: string, t: string, tag: string, body: string)
    requires Words(before) && IsTag(t) && tag == Dollars(t) && EndsAtItsTag(body, tag)
    requires FoundAt(before, sql, 0) && FoundAt(tag, sql, |before|) && FoundAt(body + tag, sql, |before| + |tag|)
    requires |sql| == |before| + |tag| + |body| + |tag|
    ensures Reads(sql, 0, |sql|, Code(Dollar)) && sql[|before|] == '$' && sql[|sql| - 1] == '$'
  {
    var d := |before| + |tag|;
    FoundInParts(body, tag, sql, d);
    var prev := ReadWords(sql, before, |before|);
    ReadTagAt(sql, |before|, tag, t);
    forall k: nat | d <= k < d + |body| ensures !MatchAt(sql, tag, k) { NoTagBefore(sql, body, tag, d, k); }
    ReadClosedBody(sql, 0, tag, d, d + |body|);
    assert sql[|before| + 0] == tag[0] && sql[d + |body| + (|tag| - 1)] == tag[|tag| - 1];
  }

  // ----- what opens no dollar quote -----

  lemma {:induction false} ReadName(sql: string, w: string, d: nat, i: nat, p: Prev) returns (q: Prev)
    requires FoundAt(w, sql, d) && i <= |w| && IsName(w) && Reads(sql, 0, d + i, Code(p))
    ensures Reads(sql, 0, d + |w|, Code(q)) && (i < |w| ==> WordBefore(q))
    decreases |w| - i
  {
    q := p;
    if i < |w| {
      assert sql[d + i] == w[i];
      Read(sql, 0, d + i, Code(p), Code(NextPrev(p, w[i])));
      q := ReadName(sql, w, d, i + 1, NextPrev(p, w[i]));
    }
  }

  /** `$1` is a parameter, and opens no dollar quote. */
  lemma {:induction false} ParameterIsWhole(before: string, w: string, sql: string)
    requires Words(before) && IsName(w) && w != "" && IsDigit(w[0]) && sql == before + "$" + w
    ensures IsOneStatement(sql)
  {
    ThreeParts(before, "$", w, sql);
    assert sql[|before|] == '$';
    var q := ReadParameter(sql, before, w);
    StartsWithText(sql, before, '$');
    StatementIsWhole(sql, Code(q));
  }

  lemma {:induction false} ReadParameter(sql: string, before: string, w: string) returns (q: Prev)
    requires Words(before) && IsName(w) && w != "" && IsDigit(w[0])
    requires FoundAt(before, sql, 0) && FoundAt(w, sql, |before| + 1) && |sql| == |before| + 1 + |w|
    requires sql[|before|] == '$'
    ensures Reads(sql, 0, |sql|, Code(q)) && !IsSpace(sql[|sql| - 1])
  {
    var n := |before|;
    var prev := ReadWords(sql, before, n);
    assert sql[n + 1 + 0] == w[0] && sql[n + 1 + (|w| - 1)] == w[|w| - 1];
    Read(sql, 0, n, Code(Other), Tag("$"));
    Read(sql, 0, n + 1, Tag("$"), Code(NextPrev(Dollar, w[0])));
    q := ReadName(sql, w, n + 1, 1, NextPrev(Dollar, w[0]));
    NotSpace(w[|w| - 1]);
  }

  /** A `$` right behind a word character belongs to the word, and opens none either: `a$b$` is a name. */
  lemma {:induction false} DollarsInANameAreWhole(before: string, w: string, t: string, sql: string)
    requires Words(before) && IsName(w) && w != "" && IsName(t) && t != ""
    requires sql == before + w + ['$'] + t + ['$']
    ensures IsOneStatement(sql)
  {
    PartsOfQuoted(before, w, '$', t, sql);
    assert sql[|before| + 0] == w[0];
    ReadDollarsInAName(sql, before, w, t);
    StartsWithText(sql, before, w[0]);
    NotSpace('$');
    StatementIsWhole(sql, Code(Dollar));
  }

  lemma {:induction false} ReadDollarsInAName(sql: string, before: string, w: string, t: string)
    requires Words(before) && IsName(w) && w != "" && IsName(t) && t != ""
    requires FoundAt(before, sql, 0) && FoundAt(w, sql, |before|) && FoundAt(t, sql, |before| + |w| + 1)
    requires |sql| == |before| + |w| + |t| + 2 && sql[|before| + |w|] == '$' && sql[|sql| - 1] == '$'
    ensures Reads(sql, 0, |sql|, Code(Dollar))
  {
    var n := |before| + |w|;
    var prev := ReadWords(sql, before, |before|);
    var q := ReadName(sql, w, |before|, 0, Other);
    Read(sql, 0, n, Code(q), Code(Dollar));
    var r := ReadName(sql, t, n + 1, 0, Dollar);
    Read(sql, 0, n + 1 + |t|, Code(r), Code(Dollar));
  }

  // ----- comments -----

  lemma {:induction false} NameAfterComment(sql: string, before: string, d: nat, w: string)
    requires Words(before) && before != "" && FoundAt(before, sql, 0)
    requires IsName(w) && w != "" && FoundAt(w, sql, d) && |before| <= d && |sql| == d + |w|
    requires Reads(sql, 0, d, Code(Other))
    ensures IsOneStatement(sql)
  {
    var p := ReadName(sql, w, d, 0, Other);
    assert sql[0 + 0] == before[0] && sql[d + (|w| - 1)] == w[|w| - 1];
    NotSpace(before[0]);
    NotSpace(w[|w| - 1]);
    StatementIsWhole(sql, Code(p));
  }

  /** A comment up to the end of its line, whatever is in it. */
  lemma {:induction false} LineCommentIsSkipped(before: string, s: string, w: string, sql: string)
    requires Words(before) && before != "" && IsName(w) && w != "" && forall k :: 0 <= k < |s| ==> s[k] != '\n'
    requires sql == before + ("--" + s + "\n") + w
    ensures IsOneStatement(sql)
  {
    var note := "--" + s + "\n";
    ThreeParts(before, note, w, sql);
    assert note[0] == '-' && note[1] == '-' && note[2 + |s|] == '\n';
    assert forall k :: 2 <= k < 2 + |s| ==> note[k] != '\n';
    ReadLineComment(sql, before, note);
    NameAfterComment(sql, before, |before| + |note|, w);
  }

  lemma {:induction false} ReadLineComment(sql: string, before: string, note: string)
    requires Words(before) && FoundAt(before, sql, 0) && FoundAt(note, sql, |before|)
    requires |note| >= 3 && note[0] == '-' && note[1] == '-' && note[|note| - 1] == '\n'
    requires forall k :: 2 <= k < |note| - 1 ==> note[k] != '\n'
    ensures Reads(sql, 0, |before| + |note|, Code(Other))
  {
    var n, end := |before|, |before| + |note| - 1;
    var prev := ReadWords(sql, before, n);
    forall k | n <= k <= end ensures sql[k] == note[k - n] { assert sql[n + (k - n)] == note[k - n]; }
    Read(sql, 0, n, Code(Other), Dash);
    Read(sql, 0, n + 1, Dash, Line);
    ReadLine(sql, 0, n + 2, end);
    Read(sql, 0, end, Line, Code(Other));
  }

  predicate NoMarks(s: string) { forall k :: 0 <= k < |s| ==> s[k] != '/' && s[k] != '*' }

  /** Comments in comments, each with a text before the one inside. */
  function Nested(texts: seq<string>): string {
    if texts == [] then "" else "/*" + texts[0] + (Nested(texts[1..]) + "*/")
  }

  lemma {:induction false} ReadNoMarks(sql: string, s: string, d: nat, i: nat, depth: nat)
    requires NoMarks(s) && FoundAt(s, sql, d) && i <= |s| && Reads(sql, 0, d + i, Block(depth))
    ensures Reads(sql, 0, d + |s|, Block(depth))
    decreases |s| - i
  {
    if i < |s| {
      assert sql[d + i] == s[i];
      Read(sql, 0, d + i, Block(depth), Block(depth));
      ReadNoMarks(sql, s, d, i + 1, depth);
    }
  }

  /** Two characters that open or close. */
  lemma ReadMark(sql: string, d: nat, mark: string, s: Lex, depth: nat, after: nat)
    requires FoundAt(mark, sql, d) && Reads(sql, 0, d, s)
    requires if depth == 0 then s == Code(Other) && mark == "/*" else s == Block(depth)
    requires (mark == "/*" && after == depth + 1) || (mark == "*/" && after + 1 == depth)
    ensures Reads(sql, 0, d + 2, if after == 0 then Code(Other) else Block(after))
  {
    assert sql[d + 0] == mark[0] && sql[d + 1] == mark[1];
    Read(sql, 0, d, s, Step(s, mark[0]));
    Read(sql, 0, d + 1, Step(s, mark[0]), if after == 0 then Code(Other) else Block(after));
  }

  lemma {:induction false} ReadNested(sql: string, texts: seq<string>, d: nat, depth: nat)
    requires forall k :: 0 <= k < |texts| ==> NoMarks(texts[k])
    requires FoundAt(Nested(texts), sql, d) && texts != []
    requires Reads(sql, 0, d, if depth == 0 then Code(Other) else Block(depth))
    ensures Reads(sql, 0, d + |Nested(texts)|, if depth == 0 then Code(Other) else Block(depth))
    decreases |texts|
  {
    var s, inner := texts[0], Nested(texts[1..]);
    FoundInParts("/*" + s, inner + "*/", sql, d);
    FoundInParts("/*", s, sql, d);
    FoundInParts(inner, "*/", sql, d + 2 + |s|);
    ReadMark(sql, d, "/*", if depth == 0 then Code(Other) else Block(depth), depth, depth + 1);
    ReadNoMarks(sql, s, d + 2, 0, depth + 1);
    if |texts| > 1 { ReadNested(sql, texts[1..], d + 2 + |s|, depth + 1); }
    ReadMark(sql, d + 2 + |s| + |inner|, "*/", Block(depth + 1), depth + 1, depth);
  }

  /** Block comments nest, to any depth. */
  lemma {:induction false} NestedCommentIsSkipped(before: string, texts: seq<string>, w: string, sql: string)
    requires Words(before) && before != "" && IsName(w) && w != ""
    requires texts != [] && (forall k :: 0 <= k < |texts| ==> NoMarks(texts[k]))
    requires sql == before + Nested(texts) + w
    ensures IsOneStatement(sql)
  {
    ThreeParts(before, Nested(texts), w, sql);
    var prev := ReadWords(sql, before, |before|);
    ReadNested(sql, texts, |before|, 0);
    NameAfterComment(sql, before, |before| + |Nested(texts)|, w);
  }
}

/** What the ranges of a SQLite script are. */
module SqliteStatements {
  import opened Text
  import opened Statements
  import opened SqliteLexer
  import opened SqliteSplitter

  lemma RangesLieBetweenCuts(sql: string, r: Range)
    ensures WellSplit(sql, SplitAtSeparators(sql))
    ensures r in SplitAtSeparators(sql) <==>
      exists lo, hi :: BetweenCuts(sql, Cuts(sql, 0, Empty), lo, hi) && Piece(sql, lo, hi, HasStatementText) == Some(r)
  {
    SplitAtIsWellSplit(sql, Cuts(sql, 0, Empty), HasStatementText);
    SplitAtIsThePieces(sql, Cuts(sql, 0, Empty), HasStatementText, r);
  }

  // ----- where a trigger ends -----

  /** Reading from `i`, with the tokens `h` before it, comes to `k` with the tokens `g`, whatever separates. */
  ghost predicate Reads(sql: string, i: nat, h: History, k: nat, g: History)
    requires i <= |sql|
    decreases |sql| - i
  {
    if i >= k then i == k && h == g
    else i < |sql| && Reads(sql, LexemeEnd(sql, i), if LexemeAt(sql, i).Gap? then h
      else Then(h, LexemeAt(sql, i).token), k, g)
  }

  /**
   * A trigger ends at the first semicolon whose two tokens before are a semicolon and `END`: up to there
   * no semicolon of its body separates.
   */
  lemma {:induction false} TriggerEndsAfterSemiEnd(sql: string, i: nat, h: History, k: nat, g: History)
    requires i <= k < |sql| && IsTrigger(FirstWords(h)) && Reads(sql, i, h, k, g)
    requires forall c: nat :: i <= c < k ==> c !in Cuts(sql, i, h)
    ensures k in Cuts(sql, i, h) <==> LexemeAt(sql, k) == Significant(Semi) && AfterSemiEnd(g)
    decreases |sql| - i
  {
    var end := LexemeEnd(sql, i);
    match LexemeAt(sql, i)
    case Gap =>
      assert Cuts(sql, i, h) == Cuts(sql, end, h);
      if i < k {
        TriggerEndsAfterSemiEnd(sql, end, h, k, g);
      } else {
        if k in Cuts(sql, end, h) { CutsComeLater(sql, end, h, k); }
      }
    case Significant(token) =>
      TriggerStays(h, token);
      if i < k {
        assert i !in Cuts(sql, i, h);
        TriggerEndsAfterSemiEnd(sql, end, Then(h, token), k, g);
      } else if k in Cuts(sql, end, Then(h, token)) {
        CutsComeLater(sql, end, Then(h, token), k);
      }
  }

  // ----- no token is lost -----

  /** Reading from `i` comes to `k`, between two lexemes. */
  ghost predicate Boundary(sql: string, i: nat, k: nat)
    requires i <= |sql|
    decreases |sql| - i
  {
    i == k || (i < k && i < |sql| && Boundary(sql, LexemeEnd(sql, i), k))
  }

  lemma {:induction false} BoundaryAfter(sql: string, i: nat, k: nat)
    requires i <= |sql| && k < |sql| && Boundary(sql, i, k)
    ensures Boundary(sql, i, LexemeEnd(sql, k))
    decreases |sql| - i
  {
    if i < k { BoundaryAfter(sql, LexemeEnd(sql, i), k); }
  }

  /** Reading from `i` comes to `k`, and what is there is a token. */
  ghost predicate TokenAt(sql: string, i: nat, k: nat)
    requires i <= |sql|
  {
    Boundary(sql, i, k) && k < |sql| && LexemeAt(sql, k).Significant?
  }

  lemma {:induction false} LineEndOf(s: string, i: nat, e: nat)
    requires i <= e < |s| && s[e] == '\n' && forall k :: i <= k < e ==> s[k] != '\n'
    ensures LineEnd(s, i) == e
    decreases e - i
  {
    if i < e { LineEndOf(s, i + 1, e); }
  }

  lemma NextBoundary(sql: string, i: nat, k: nat)
    requires i < |sql| && Boundary(sql, i, k) && i != k
    ensures LexemeEnd(sql, i) <= k && Boundary(sql, LexemeEnd(sql, i), k)
  {}

  lemma SameCharacter(sql: string, d: nat, text: string, k: nat)
    requires FoundAt(text, sql, d) && k < |text|
    ensures text[k] == sql[d + k]
  {}

  lemma MarkInside(sql: string, d: nat, text: string, mark: string, k: nat)
    requires FoundAt(text, sql, d) && |mark| == 2 && k + 2 <= |text|
    ensures MatchAt(text, mark, k) <==> MatchAt(sql, mark, d + k)
  {
    SameCharacter(sql, d, text, k);
    SameCharacter(sql, d, text, k + 1);
    MatchTwo(text, mark, k);
    MatchTwo(sql, mark, d + k);
  }

  lemma NoMarkInside(sql: string, d: nat, text: string, i: nat)
    requires FoundAt(text, sql, d) && i < |text| && !LineCommentAt(sql, d + i) && !BlockCommentAt(sql, d + i)
    ensures HasTextFrom(text, i) <==> !IsSpace(sql[d + i]) || HasTextFrom(text, i + 1)
  {
    SameCharacter(sql, d, text, i);
    if i + 2 <= |text| {
      MarkInside(sql, d, text, "--", i);
      MarkInside(sql, d, text, "/*", i);
      MatchTwo(sql, "--", d + i);
      MatchTwo(sql, "/*", d + i);
    }
  }

  // ----- which statements are kept -----

  predicate Unclosed(sql: string, i: nat) { BlockCommentAt(sql, i) && IndexOf(sql, "*/", i + 2) == -1 }

  /** A token that is more than blanks, or a comment that is not closed. */
  ghost predicate ShowsAt(sql: string, i: nat)
    requires i < |sql|
  {
    if LexemeAt(sql, i).Gap? then Unclosed(sql, i) else VisibleIn(sql, i, LexemeEnd(sql, i))
  }

  /** There is such a token or comment from `i` up to `hi`. */
  ghost predicate ShowsFrom(sql: string, i: nat, hi: nat)
    requires i <= |sql|
    decreases |sql| - i
  {
    i < hi && i < |sql| && (ShowsAt(sql, i) || ShowsFrom(sql, LexemeEnd(sql, i), hi))
  }

  ghost predicate IsText(sql: string, text: string, f: nat, t: nat) {
    f <= t <= |sql| && |text| == t - f && FoundAt(text, sql, f)
  }

  /** What is read from `f` to `t`, in a stretch that goes on up to `hi`: only blanks come after `t`. */
  ghost predicate EndsVisibly(sql: string, text: string, f: nat, t: nat, hi: nat) {
    IsText(sql, text, f, t) && t <= hi <= |sql| && (t > f ==> VisibleAt(sql, t - 1)) && forall k ::
      t <= k < hi ==> !VisibleAt(sql, k)
  }

  function Least(a: nat, b: nat): nat { if a < b then a else b }

  /** Only blanks: nothing shows. */
  lemma {:induction false} BlanksShowNothing(sql: string, i: nat, hi: nat)
    requires i <= hi <= |sql| && Boundary(sql, i, hi) && forall k :: i <= k < hi ==> !VisibleAt(sql, k)
    ensures !ShowsFrom(sql, i, hi)
    decreases |sql| - i
  {
    if i < hi {
      assert !VisibleAt(sql, i);
      BlankStart(sql, i);
      NextBoundary(sql, i, hi);
      BlanksShowNothing(sql, LexemeEnd(sql, i), hi);
    }
  }

  /** A blank starts a word or a gap of its own. */
  lemma BlankStart(sql: string, i: nat)
    requires i < |sql| && IsSpace(sql[i])
    ensures !LineCommentAt(sql, i) && !BlockCommentAt(sql, i)
    ensures LexemeAt(sql, i).Gap? ==> LexemeEnd(sql, i) == i + 1
    ensures LexemeAt(sql, i).Significant? ==> WordStart(sql[i])
  {
    if '!' <= sql[i] <= '~' { NotSpace(sql[i]); }
  }

  /** Inside a word no comment starts. */
  lemma {:induction false} WordHasParts(sql: string, i: nat, k: nat)
    requires i <= |sql| && i <= k < WordEnd(sql, i)
    ensures WordPart(sql[k])
    decreases k - i
  {
    if i < k { WordHasParts(sql, i + 1, k); }
  }

  /** The rest of a word: the test passes over it up to its first visible character. */
  lemma {:induction false} WordInside(sql: string, text: string, f: nat, t: nat, i: nat, e: nat)
    requires IsText(sql, text, f, t)
    requires f <= i <= e <= t <= |sql| && forall k :: i <= k < e ==> WordPart(sql[k])
    ensures HasTextFrom(text, i - f) <==> VisibleIn(sql, i, e) || HasTextFrom(text, e - f)
    decreases e - i
  {
    if i < e {
      NoMarkInside(sql, f, text, i - f);
      WordInside(sql, text, f, t, i + 1, e);
      VisibleNext(sql, i, e);
    }
  }

  lemma VisibleNext(sql: string, i: nat, e: nat)
    requires i < e <= |sql|
    ensures VisibleIn(sql, i, e) <==> VisibleAt(sql, i) || VisibleIn(sql, i + 1, e)
  {}

  lemma VisibleUpTo(sql: string, i: nat, t: nat, e: nat)
    requires i <= t <= e <= |sql| && forall k :: t <= k < e ==> !VisibleAt(sql, k)
    ensures VisibleIn(sql, i, e) <==> VisibleIn(sql, i, t)
  {}

  /** A token in the trimmed text. */
  lemma {:induction false} TokenInside(sql: string, text: string, f: nat, t: nat, hi: nat, i: nat)
    requires EndsVisibly(sql, text, f, t, hi) && f <= i < t && LexemeAt(sql, i).Significant? && LexemeEnd(sql, i) <= hi
    ensures var e := Least(LexemeEnd(sql, i), t);
      HasTextFrom(text, i - f) <==> ShowsAt(sql, i) || HasTextFrom(text, e - f)
  {
    var end := LexemeEnd(sql, i);
    var e := Least(end, t);
    if WordStart(sql[i]) {
      forall k | i <= k < e ensures WordPart(sql[k]) { if k > i { WordHasParts(sql, i + 1, k); } }
      WordInside(sql, text, f, t, i, e);
      VisibleUpTo(sql, i, e, end);
    } else {
      OtherTokenInside(sql, text, f, t, i);
    }
  }

  /** A token that is no word starts with a visible character. */
  lemma {:induction false} OtherTokenInside(sql: string, text: string, f: nat, t: nat, i: nat)
    requires IsText(sql, text, f, t) && f <= i < t && LexemeAt(sql, i).Significant? && !WordStart(sql[i])
    ensures HasTextFrom(text, i - f) && ShowsAt(sql, i)
  {
    if IsSpace(sql[i]) { BlankStart(sql, i); }
    assert VisibleAt(sql, i);
    NoMarkInside(sql, f, text, i - f);
  }

  /** A line comment: the test passes over it, to its line feed or to the end of the text. */
  lemma {:induction false} LineCommentInside(sql: string, text: string, f: nat, t: nat, hi: nat, i: nat)
    requires EndsVisibly(sql, text, f, t, hi) && f <= i < t && LineCommentAt(sql, i) && LexemeEnd(sql, i) <= hi
    ensures var end := LexemeEnd(sql, i); HasTextFrom(text, i - f) <==> end < t && HasTextFrom(text, end - f)
  {
    var found := IndexOf(sql, "\n", i);
    LineOpens(sql, text, f, t, hi, i);
    HasTextAfterLineComment(text, i - f);
    if found != -1 && found < t {
      LineFeedInside(sql, text, f, t, i);
    } else {
      NoLineFeedInside(sql, text, f, t, i);
    }
  }

  lemma LineOpens(sql: string, text: string, f: nat, t: nat, hi: nat, i: nat)
    requires EndsVisibly(sql, text, f, t, hi) && f <= i < t && LineCommentAt(sql, i) && LexemeEnd(sql, i) <= hi
    ensures i + 2 <= t && MatchAt(text, "--", i - f)
    ensures IndexOf(sql, "\n", i) != -1 ==> LexemeEnd(sql, i) == IndexOf(sql, "\n", i) + 1
    ensures IndexOf(sql, "\n", i) == -1 ==> LexemeEnd(sql, i) == |sql|
  {
    var found := IndexOf(sql, "\n", i);
    NotSpace('-');
    if found != -1 { MatchOne(sql, "\n", found); }
    assert VisibleAt(sql, i + 1);
    MatchTwo(sql, "--", i);
    MarkInside(sql, f, text, "--", i - f);
  }

  lemma NoLineFeedInside(sql: string, text: string, f: nat, t: nat, i: nat)
    requires IsText(sql, text, f, t)
    requires f <= i && i + 2 <= t <= |sql| && (IndexOf(sql, "\n", i) == -1 || t <= IndexOf(sql, "\n", i))
    ensures LineEnd(text, i - f + 2) == t - f
  {
    forall k | i - f <= k < |text| ensures text[k] != '\n' { NoLineFeed(sql, i, f + k); }
    NoLineEnd(text, i - f + 2);
  }

  lemma NoLineFeed(sql: string, i: nat, k: nat)
    requires i <= k < |sql| && (IndexOf(sql, "\n", i) == -1 || k < IndexOf(sql, "\n", i))
    ensures sql[k] != '\n'
  {
    IndexOfIsFirst(sql, "\n", i, k);
    MatchOne(sql, "\n", k);
  }

  lemma LineFeedInside(sql: string, text: string, f: nat, t: nat, i: nat)
    requires IsText(sql, text, f, t) && f <= i && i + 2 <= t && LineCommentAt(sql, i)
    requires IndexOf(sql, "\n", i) != -1 && IndexOf(sql, "\n", i) < t
    ensures LineEnd(text, i - f + 2) == IndexOf(sql, "\n", i) - f
  {
    var found := IndexOf(sql, "\n", i);
    MatchOne(sql, "\n", found);
    forall k | i <= k < found ensures sql[k] != '\n' { NoLineFeed(sql, i, k); }
    LineEndOf(text, i - f + 2, found - f);
  }

  lemma CloseInside(sql: string, text: string, f: nat, t: nat, i: nat)
    requires IsText(sql, text, f, t)
    requires f <= i && t <= |sql| && IndexOf(sql, "*/", i) != -1 && IndexOf(sql, "*/", i) + 2 <= t
    ensures IndexOf(text, "*/", i - f) == IndexOf(sql, "*/", i) - f
  {
    var close := IndexOf(sql, "*/", i);
    MarkInside(sql, f, text, "*/", close - f);
    forall k: nat | i - f <= k < close - f ensures !MatchAt(text, "*/", k) {
      IndexOfIsFirst(sql, "*/", i, f + k);
      MarkInside(sql, f, text, "*/", k);
    }
    IndexOfIs(text, "*/", i - f, close - f);
  }

  lemma CloseIsVisible(sql: string, text: string, f: nat, t: nat, hi: nat, i: nat)
    requires EndsVisibly(sql, text, f, t, hi) && BlockCommentAt(sql, i) && !Unclosed(sql, i) && LexemeEnd(sql, i) <= hi
    ensures LexemeEnd(sql, i) == IndexOf(sql, "*/", i + 2) + 2 <= t
  {
    NotSpace('/');
    MatchTwo(sql, "*/", IndexOf(sql, "*/", i + 2));
    assert VisibleAt(sql, LexemeEnd(sql, i) - 1);
  }

  /** A block comment that is closed. */
  lemma {:induction false} BlockCommentInside(sql: string, text: string, f: nat, t: nat, hi: nat, i: nat)
    requires EndsVisibly(sql, text, f, t, hi) && f <= i < t && BlockCommentAt(sql, i) && !Unclosed(sql, i)
    requires LexemeEnd(sql, i) <= hi
    ensures LexemeEnd(sql, i) <= t && (HasTextFrom(text, i - f) <==> HasTextFrom(text, LexemeEnd(sql, i) - f))
  {
    CloseIsVisible(sql, text, f, t, hi, i);
    BlockOpens(sql, text, f, t, i);
    CloseInside(sql, text, f, t, i + 2);
  }

  lemma BlockOpens(sql: string, text: string, f: nat, t: nat, i: nat)
    requires IsText(sql, text, f, t) && f <= i && i + 2 <= t && BlockCommentAt(sql, i)
    ensures MatchAt(text, "/*", i - f) && !MatchAt(text, "--", i - f)
  {
    MatchTwo(sql, "--", i);
    MatchTwo(sql, "/*", i);
    MarkInside(sql, f, text, "--", i - f);
    MarkInside(sql, f, text, "/*", i - f);
  }

  /** One that is not closed counts as text. */
  lemma UnclosedInside(sql: string, text: string, f: nat, t: nat, hi: nat, i: nat)
    requires EndsVisibly(sql, text, f, t, hi) && f <= i < t && Unclosed(sql, i) && hi == |sql|
    ensures HasTextFrom(text, i - f)
  {
    NotSpace('*');
    NotSpace('/');
    assert VisibleAt(sql, i + 1);
    MatchTwo(sql, "--", i);
    MatchTwo(sql, "/*", i);
    MarkInside(sql, f, text, "--", i - f);
    var found := IndexOf(text, "*/", i + 2 - f);
    if found != -1 {
      MarkInside(sql, f, text, "*/", found);
      IndexOfIsFirst(sql, "*/", i + 2, f + found);
    }
  }

  /** What is not a token. */
  lemma GapInside(sql: string, text: string, f: nat, t: nat, hi: nat, i: nat)
    requires EndsVisibly(sql, text, f, t, hi) && f <= i < t && LexemeAt(sql, i).Gap? && LexemeEnd(sql, i) <= hi
    ensures var e := Least(LexemeEnd(sql, i), t);
      HasTextFrom(text, i - f) <==> ShowsAt(sql, i) || HasTextFrom(text, e - f)
  {
    if LineCommentAt(sql, i) {
      LineCommentInside(sql, text, f, t, hi, i);
    } else if Unclosed(sql, i) {
      UnclosedInside(sql, text, f, t, hi, i);
    } else if BlockCommentAt(sql, i) {
      BlockCommentInside(sql, text, f, t, hi, i);
    } else {
      BlankInside(sql, text, f, t, i);
    }
  }

  lemma {:induction false} BlankInside(sql: string, text: string, f: nat, t: nat, i: nat)
    requires IsText(sql, text, f, t) && f <= i < t && LexemeAt(sql, i).Gap? && !LineCommentAt(sql, i)
    requires !BlockCommentAt(sql, i)
    ensures LexemeEnd(sql, i) == i + 1 && (HasTextFrom(text, i - f) <==> HasTextFrom(text, i + 1 - f))
  {
    BlankStart(sql, i);
    NoMarkInside(sql, f, text, i - f);
  }

  lemma LexemeInside(sql: string, text: string, f: nat, t: nat, hi: nat, i: nat)
    requires EndsVisibly(sql, text, f, t, hi) && f <= i < t && LexemeEnd(sql, i) <= hi
    ensures var e := Least(LexemeEnd(sql, i), t);
      HasTextFrom(text, i - f) <==> ShowsAt(sql, i) || HasTextFrom(text, e - f)
  {
    if LexemeAt(sql, i).Gap? { GapInside(sql, text, f, t, hi, i); } else { TokenInside(sql, text, f, t, hi, i); }
  }

  lemma {:induction false} ShowsBefore(sql: string, text: string, f: nat, t: nat, hi: nat, i: nat)
    requires EndsVisibly(sql, text, f, t, hi) && f <= i < t && LexemeEnd(sql, i) <= hi
    requires HasTextFrom(text, Least(LexemeEnd(sql, i), t) - f) <==> ShowsFrom(sql, LexemeEnd(sql, i), hi)
    ensures HasTextFrom(text, i - f) <==> ShowsFrom(sql, i, hi)
  {
    LexemeInside(sql, text, f, t, hi, i);
  }

  /** Reading the trimmed text as the script is read. */
  lemma {:induction false} TextShows(sql: string, text: string, f: nat, t: nat, hi: nat, i: nat)
    requires EndsVisibly(sql, text, f, t, hi) && f <= i <= hi && Boundary(sql, i, hi)
    ensures HasTextFrom(text, Least(i, t) - f) <==> ShowsFrom(sql, i, hi)
    decreases |sql| - i
  {
    if i < t {
      NextBoundary(sql, i, hi);
      TextShows(sql, text, f, t, hi, LexemeEnd(sql, i));
      ShowsBefore(sql, text, f, t, hi, i);
    } else {
      NothingAfter(sql, text, f, t, hi, i);
    }
  }

  lemma {:induction false} NothingAfter(sql: string, text: string, f: nat, t: nat, hi: nat, i: nat)
    requires EndsVisibly(sql, text, f, t, hi) && t <= i <= hi && Boundary(sql, i, hi)
    ensures !HasTextFrom(text, t - f) && !ShowsFrom(sql, i, hi)
  {
    BlanksShowNothing(sql, i, hi);
  }

  /** The text starts after the blanks of its stretch, maybe inside a word. */
  lemma {:induction false} StretchShows(sql: string, text: string, lo: nat, f: nat, t: nat, hi: nat)
    requires lo <= f < t && EndsVisibly(sql, text, f, t, hi) && Boundary(sql, lo, hi) && VisibleAt(sql, f)
    requires forall k :: lo <= k < f ==> !VisibleAt(sql, k)
    ensures HasTextFrom(text, 0) <==> ShowsFrom(sql, lo, hi)
    decreases f - lo
  {
    if lo == f {
      TextShows(sql, text, f, t, hi, f);
    } else {
      assert !VisibleAt(sql, lo);
      BlankStart(sql, lo);
      NextBoundary(sql, lo, hi);
      if LexemeEnd(sql, lo) <= f {
        StretchShows(sql, text, LexemeEnd(sql, lo), f, t, hi);
      } else {
        WordHasParts(sql, lo + 1, f);
        NoMarkInside(sql, f, text, 0);
      }
    }
  }

  /**
   * A stretch between two cuts gives a range exactly when a token shows in it that is more than blanks, or a comment
   * that is not closed.
   */
  lemma KeptWhenItShows(sql: string, lo: nat, hi: nat)
    requires lo <= hi <= |sql| && Boundary(sql, lo, hi)
    ensures Piece(sql, lo, hi, HasStatementText).Some? <==> ShowsFrom(sql, lo, hi)
  {
    var f := SkipSpaces(sql, lo, hi);
    var t := BackSpaces(sql, f, hi);
    forall k | lo <= k < f ensures !VisibleAt(sql, k) { SkipsBlanks(sql, lo, hi, k); }
    forall k | t <= k < hi ensures !VisibleAt(sql, k) { BacksBlanks(sql, f, hi, k); }
    if f < t {
      assert VisibleAt(sql, f);
      StretchShows(sql, sql[f..t], lo, f, t, hi);
    } else {
      BlanksShowNothing(sql, lo, hi);
    }
  }

  /** Reading from one past a cut, from the start or from anywhere between comes to the same tokens. */
  lemma {:induction false} CutsAreBoundaries(sql: string, i: nat, h: History, k: nat)
    requires i <= |sql| && k in Cuts(sql, i, h)
    ensures k < |sql| && Boundary(sql, i, k) && LexemeAt(sql, k) == Significant(Semi) && LexemeEnd(sql, k) == k + 1
    decreases |sql| - i
  {
    CutsComeLater(sql, i, h, k);
    var end := LexemeEnd(sql, i);
    match LexemeAt(sql, i)
    case Gap => CutsAreBoundaries(sql, end, h, k);
    case Significant(token) =>
      if token == Semi && Separates(h) {
        if k != i { CutsAreBoundaries(sql, end, Empty, k); }
      } else {
        CutsAreBoundaries(sql, end, Then(h, token), k);
      }
  }

  lemma {:induction false} BoundaryFrom(sql: string, i: nat, m: nat, k: nat)
    requires i <= |sql| && m <= |sql| && Boundary(sql, i, m) && Boundary(sql, i, k) && m <= k
    ensures Boundary(sql, m, k)
    decreases |sql| - i
  {
    if i < m { BoundaryFrom(sql, LexemeEnd(sql, i), m, k); }
  }

  /** A stretch between cuts goes from one place between lexemes to another. */
  lemma StretchIsRead(sql: string, lo: nat, hi: nat)
    requires BetweenCuts(sql, Cuts(sql, 0, Empty), lo, hi)
    ensures Boundary(sql, 0, lo) && Boundary(sql, lo, hi)
  {
    if lo > 0 {
      CutsAreBoundaries(sql, 0, Empty, lo - 1);
      BoundaryAfter(sql, 0, lo - 1);
    }
    if hi < |sql| { CutsAreBoundaries(sql, 0, Empty, hi); } else { EndIsBoundary(sql, 0); }
    BoundaryFrom(sql, 0, lo, hi);
  }

  lemma {:induction false} EndIsBoundary(sql: string, i: nat)
    requires i <= |sql|
    ensures Boundary(sql, i, |sql|)
    decreases |sql| - i
  {
    if i < |sql| { EndIsBoundary(sql, LexemeEnd(sql, i)); }
  }

  lemma {:induction false} TokenShows(sql: string, i: nat, p: nat, hi: nat)
    requires i <= p < hi <= |sql| && TokenAt(sql, i, p) && VisibleAt(sql, p)
    ensures ShowsFrom(sql, i, hi)
    decreases |sql| - i
  {
    if i < p {
      assert Boundary(sql, LexemeEnd(sql, i), p);
      TokenShows(sql, LexemeEnd(sql, i), p, hi);
    }
  }

  /**
   * Which tokens a range holds: every one that starts with a visible character; and of the words that start with a
   * blank (as a no-break space is) exactly those with something visible before and after their start in their
   * statement, which has to be kept for a token or an open comment in it.
   */
  lemma TokenIsHeldExactly(sql: string, p: nat, lo: nat, hi: nat)
    requires TokenAt(sql, 0, p) && BetweenCuts(sql, Cuts(sql, 0, Empty), lo, hi) && lo <= p < hi
    ensures Holds(SplitAtSeparators(sql), p) <==>
      VisibleAt(sql, p) || (VisibleIn(sql, lo, p) && VisibleIn(sql, p, hi) && ShowsFrom(sql, lo, hi))
  {
    StretchIsRead(sql, lo, hi);
    KeptWhenItShows(sql, lo, hi);
    PlaceIsHeld(sql, Cuts(sql, 0, Empty), HasStatementText, lo, hi, p);
    BoundaryFrom(sql, 0, lo, p);
    if VisibleAt(sql, p) { TokenShows(sql, lo, p, hi); }
  }

  /**
   * Every token that starts with a visible character and does not separate statements starts inside exactly one
   * range.
   */
  lemma EveryTokenIsInARange(sql: string, p: nat)
    requires TokenAt(sql, 0, p) && p !in Cuts(sql, 0, Empty) && VisibleAt(sql, p)
    ensures HeldOnce(SplitAtSeparators(sql), p)
  {
    var lo, hi := StretchAround(sql, Cuts(sql, 0, Empty), p);
    TokenIsHeldExactly(sql, p, lo, hi);
    SplitAtIsWellSplit(sql, Cuts(sql, 0, Empty), HasStatementText);
    HeldInOne(sql, SplitAtSeparators(sql), p);
  }

  /**
   * A word that starts with a blank can be lost: a no-break space is a word to the scanner and a blank to the
   * trimming.
   */
  lemma BlankWordIsLost(sql: string)
    requires sql == "\U{A0}" || sql == "\U{A0}a"
    ensures TokenAt(sql, 0, 0) && 0 !in Cuts(sql, 0, Empty) && !Holds(SplitAtSeparators(sql), 0)
    ensures |sql| == 1 ==> SplitAtSeparators(sql) == []
  {
    NoBreakSpace(sql[0]);
    OneWordHasNoCut(sql);
    WordIsHeld(sql);
    SplitAtIsWellSplit(sql, Cuts(sql, 0, Empty), HasStatementText);
    if |sql| == 1 { OnlyPlace(sql, SplitAtSeparators(sql)); }
  }

  lemma NoBreakSpace(c: char)
    requires c == '\U{A0}'
    ensures IsSpace(c) && WordStart(c)
  {
    SpaceIs(6);
    assert SPACES[6] == c;
  }

  lemma OneWordHasNoCut(sql: string)
    requires 1 <= |sql| <= 2 && WordStart(sql[0]) && (|sql| == 2 ==> sql[1] == 'a') && IsSpace(sql[0])
    ensures Cuts(sql, 0, Empty) == {} && LexemeAt(sql, 0).Significant?
  {
    BlankStart(sql, 0);
    WordEnds(sql);
  }

  lemma WordEnds(sql: string)
    requires 1 <= |sql| <= 2 && (|sql| == 2 ==> sql[1] == 'a')
    ensures WordEnd(sql, 1) == |sql|
  {
    if |sql| == 2 { assert WordEnd(sql, 2) == 2; }
  }

  lemma WordIsHeld(sql: string)
    requires sql != "" && Cuts(sql, 0, Empty) == {} && LexemeAt(sql, 0).Significant? && IsSpace(sql[0])
    ensures !Holds(SplitAtSeparators(sql), 0)
  {
    assert BetweenCuts(sql, Cuts(sql, 0, Empty), 0, |sql|);
    TokenIsHeldExactly(sql, 0, 0, |sql|);
  }

  lemma OnlyPlace(sql: string, ranges: seq<Range>)
    requires WellSplit(sql, ranges) && |sql| == 1
    ensures ranges != [] ==> Holds(ranges, 0)
  {
    if ranges != [] { assert Inside(ranges[0], 0); }
  }
}

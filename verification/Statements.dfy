/**
 * What the three splitters share: the pieces of a script between its cuts turned into ranges,
 * and the statement a cursor is in.
 */
module Statements {
  import opened Text

  /** Where one statement starts and ends, without its semicolon. */
  datatype Range = Range(from: nat, to: nat)

  /** The position of the first line feed from `i` on, or the end of the text. */
  function LineEnd(s: string, i: nat): (j: nat)
    requires i <= |s|
    ensures i <= j <= |s|
    ensures j < |s| ==> s[j] == '\n'
    decreases |s| - i
  {
    if i < |s| && s[i] != '\n' then LineEnd(s, i + 1) else i
  }

  lemma {:induction false} NoLineEnd(s: string, i: nat)
    requires i <= |s| && forall k :: i <= k < |s| ==> s[k] != '\n'
    ensures LineEnd(s, i) == |s|
    decreases |s| - i
  {
    if i < |s| { NoLineEnd(s, i + 1); }
  }

  lemma {:induction false} NoLineFeedBeforeLineEnd(s: string, i: nat)
    requires i <= |s|
    ensures forall k :: i <= k < LineEnd(s, i) ==> s[k] != '\n'
    decreases |s| - i
  {
    if i < |s| && s[i] != '\n' { NoLineFeedBeforeLineEnd(s, i + 1); }
  }

  /**
   * The test a PostgreSQL or SQLite statement has to pass to be kept: something other than blanks is left once
   * the matches of `--[^\n]*|\/\*[\s\S]*?\*\/` are taken out.
   */
  predicate HasStatementText(s: string) { HasTextFrom(s, 0) }

  predicate HasTextFrom(s: string, i: nat)
    requires i <= |s|
    decreases |s| - i
  {
    i < |s| &&
    if MatchAt(s, "--", i) then HasTextFrom(s, LineEnd(s, i + 2))
    else if MatchAt(s, "/*", i) && IndexOf(s, "*/", i + 2) != -1 then HasTextFrom(s, IndexOf(s, "*/", i + 2) + 2)
    else !IsSpace(s[i]) || HasTextFrom(s, i + 1)
  }

  lemma HasTextAfterLineFeed(s: string, i: nat)
    requires i < |s| && s[i] == '\n'
    ensures HasTextFrom(s, i) <==> HasTextFrom(s, i + 1)
  {
    CommonSpaces();
    MatchTwo(s, "--", i);
    MatchTwo(s, "/*", i);
  }

  lemma HasTextAfterLineComment(s: string, i: nat)
    requires i < |s| && MatchAt(s, "--", i)
    ensures var end := LineEnd(s, i + 2); HasTextFrom(s, i) <==> end < |s| && HasTextFrom(s, end + 1)
  {
    var end := LineEnd(s, i + 2);
    if end < |s| { HasTextAfterLineFeed(s, end); }
  }

  /** What is left from `i` on once the matches are taken out. */
  ghost function StripComments(s: string, i: nat): string
    requires i <= |s|
    decreases |s| - i
  {
    if i == |s| then ""
    else if MatchAt(s, "--", i) then StripComments(s, LineEnd(s, i + 2))
    else if MatchAt(s, "/*", i) && IndexOf(s, "*/", i + 2) != -1 then StripComments(s, IndexOf(s, "*/", i + 2) + 2)
    else [s[i]] + StripComments(s, i + 1)
  }

  lemma BlankCons(c: char, rest: string)
    ensures Blank([c] + rest) <==> IsSpace(c) && Blank(rest)
  {
    if Blank([c] + rest) {
      assert ([c] + rest)[0] == c;
      forall k | 0 <= k < |rest| ensures IsSpace(rest[k]) {
        assert ([c] + rest)[k + 1] == rest[k];
      }
    }
  }

  /** The test is that what is left is not blank. */
  lemma {:induction false} HasTextIsNotBlank(s: string, i: nat)
    requires i <= |s|
    ensures HasTextFrom(s, i) <==> !Blank(StripComments(s, i))
    decreases |s| - i
  {
    if i == |s| {
    } else if MatchAt(s, "--", i) {
      HasTextIsNotBlank(s, LineEnd(s, i + 2));
    } else if MatchAt(s, "/*", i) && IndexOf(s, "*/", i + 2) != -1 {
      HasTextIsNotBlank(s, IndexOf(s, "*/", i + 2) + 2);
    } else {
      HasTextIsNotBlank(s, i + 1);
      BlankCons(s[i], StripComments(s, i + 1));
    }
  }

  /** The range of `sql[lo..hi]`, trimmed; none for a text that is blank or that `keep` turns down. */
  function Piece(sql: string, lo: nat, hi: nat, keep: string -> bool): Option<Range>
    requires lo <= hi <= |sql|
  {
    var f := SkipSpaces(sql, lo, hi);
    var t := BackSpaces(sql, f, hi);
    if f < t && keep(sql[f..t]) then Some(Range(f, t)) else None
  }

  /** Trims a stretch of the script and adds its range, if something is left that `keep` accepts. */
  method PushStatement(ranges: seq<Range>, sql: string, from: nat, to: nat, keep: string -> bool)
      returns (pushed: seq<Range>)
    requires from <= to <= |sql|
    ensures pushed == Add(ranges, Piece(sql, from, to, keep))
  {
    var f := from;
    while f < to && IsSpace(sql[f])
      invariant from <= f <= to
      invariant SkipSpaces(sql, f, to) == SkipSpaces(sql, from, to)
    {
      f := f + 1;
    }
    var t := to;
    while t > f && IsSpace(sql[t - 1])
      invariant f <= t <= to
      invariant BackSpaces(sql, f, t) == BackSpaces(sql, f, to)
    {
      t := t - 1;
    }
    pushed := ranges;
    if t > f && keep(sql[f..t]) {
      pushed := pushed + [Range(f, t)];
    }
  }

  // ----- a script and its cuts -----

  /** A range, if there is one, in front of others. */
  function Front(piece: Option<Range>, ranges: seq<Range>): seq<Range> {
    if piece.Some? then [piece.value] + ranges else ranges
  }

  /** A range, if there is one, behind others. */
  function Add(ranges: seq<Range>, piece: Option<Range>): seq<Range> {
    if piece.Some? then ranges + [piece.value] else ranges
  }

  lemma AddFront(ranges: seq<Range>, piece: Option<Range>, rest: seq<Range>)
    ensures Add(ranges, piece) + rest == ranges + Front(piece, rest)
  {}

  /**
   * The ranges of a script cut at the positions in `cuts`: the pieces before, between and after them.
   * The piece being read starts at `start`; `i` is how far it has been read.
   */
  ghost function Chunks(sql: string, start: nat, i: nat, cuts: set<nat>, keep: string -> bool): seq<Range>
    requires start <= i <= |sql|
    decreases |sql| - i
  {
    if i == |sql| then Front(Piece(sql, start, i, keep), [])
    else if i in cuts then Front(Piece(sql, start, i, keep), Chunks(sql, i + 1, i + 1, cuts, keep))
    else Chunks(sql, start, i + 1, cuts, keep)
  }

  ghost function SplitAt(sql: string, cuts: set<nat>, keep: string -> bool): seq<Range> {
    Chunks(sql, 0, 0, cuts, keep)
  }

  lemma {:induction false} ChunksSkip(sql: string, start: nat, i: nat, j: nat, cuts: set<nat>, keep: string -> bool)
    requires start <= i <= j <= |sql|
    requires forall k :: i <= k < j ==> k !in cuts
    ensures Chunks(sql, start, i, cuts, keep) == Chunks(sql, start, j, cuts, keep)
    decreases j - i
  {
    if i < j { ChunksSkip(sql, start, i + 1, j, cuts, keep); }
  }

  /** `ranges` are the pieces before `start`; the piece that starts there has been read up to `i`. */
  ghost predicate Done(sql: string, ranges: seq<Range>, start: nat, i: nat, cuts: set<nat>, keep: string -> bool) {
    start <= i <= |sql| && ranges + Chunks(sql, start, i, cuts, keep) == SplitAt(sql, cuts, keep)
  }

  lemma DoneSkip(sql: string, ranges: seq<Range>, start: nat, i: nat, j: nat, cuts: set<nat>, keep: string -> bool)
    requires Done(sql, ranges, start, i, cuts, keep) && i <= j <= |sql|
    requires forall k :: i <= k < j ==> k !in cuts
    ensures Done(sql, ranges, start, j, cuts, keep)
  {
    ChunksSkip(sql, start, i, j, cuts, keep);
  }

  /** Cuts at `i`. */
  method CutAt(sql: string, ranges: seq<Range>, start: nat, i: nat, ghost cuts: set<nat>, keep: string -> bool)
      returns (pushed: seq<Range>)
    requires Done(sql, ranges, start, i, cuts, keep) && i < |sql| && i in cuts
    ensures Done(sql, pushed, i + 1, i + 1, cuts, keep)
  {
    AddFront(ranges, Piece(sql, start, i, keep), Chunks(sql, i + 1, i + 1, cuts, keep));
    pushed := PushStatement(ranges, sql, start, i, keep);
  }

  /** The script ends. */
  method EndAt(sql: string, ranges: seq<Range>, start: nat, ghost cuts: set<nat>, keep: string -> bool)
      returns (pushed: seq<Range>)
    requires Done(sql, ranges, start, |sql|, cuts, keep)
    ensures pushed == SplitAt(sql, cuts, keep)
  {
    AddFront(ranges, Piece(sql, start, |sql|, keep), []);
    pushed := PushStatement(ranges, sql, start, |sql|, keep);
  }

  // ----- ranges are in order, apart, trimmed -----

  /** Ranges in bounds, not empty, trimmed at both ends, in order and at least one character apart. */
  ghost predicate WellSplit(sql: string, ranges: seq<Range>) {
    && (forall k :: 0 <= k < |ranges| ==>
        ranges[k].from < ranges[k].to <= |sql| && !IsSpace(sql[ranges[k].from]) && !IsSpace(sql[ranges[k].to - 1]))
    && (forall j, k :: 0 <= j < k < |ranges| ==> ranges[j].to < ranges[k].from)
  }

  /** The same, range by range: what is left of the script starts at `lo`. */
  ghost predicate SplitFrom(sql: string, ranges: seq<Range>, lo: nat)
    decreases |ranges|
  {
    ranges == [] || (Trimmed(sql, ranges[0], lo, |sql|) && SplitFrom(sql, ranges[1..], ranges[0].to + 1))
  }

  ghost predicate Trimmed(sql: string, r: Range, lo: nat, hi: nat) {
    lo <= r.from < r.to <= hi <= |sql| && !IsSpace(sql[r.from]) && !IsSpace(sql[r.to - 1])
  }

  lemma {:induction false} SplitFromAt(sql: string, ranges: seq<Range>, lo: nat, k: nat)
    requires SplitFrom(sql, ranges, lo) && k < |ranges|
    ensures Trimmed(sql, ranges[k], lo, |sql|)
    decreases k
  {
    if k > 0 { SplitFromAt(sql, ranges[1..], ranges[0].to + 1, k - 1); }
  }

  lemma {:induction false} SplitFromInOrder(sql: string, ranges: seq<Range>, lo: nat, j: nat, k: nat)
    requires SplitFrom(sql, ranges, lo) && j < k < |ranges|
    ensures ranges[j].to < ranges[k].from
    decreases j
  {
    if j > 0 {
      SplitFromInOrder(sql, ranges[1..], ranges[0].to + 1, j - 1, k - 1);
    } else {
      SplitFromAt(sql, ranges[1..], ranges[0].to + 1, k - 1);
    }
  }

  lemma SplitFromIsWellSplit(sql: string, ranges: seq<Range>, lo: nat)
    requires SplitFrom(sql, ranges, lo)
    ensures WellSplit(sql, ranges)
  {
    forall k | 0 <= k < |ranges| ensures Trimmed(sql, ranges[k], lo, |sql|) { SplitFromAt(sql, ranges, lo, k); }
    forall j, k | 0 <= j < k < |ranges| ensures ranges[j].to < ranges[k].from {
      SplitFromInOrder(sql, ranges, lo, j, k);
    }
  }

  lemma SplitFromEarlier(sql: string, ranges: seq<Range>, lo: nat, earlier: nat)
    requires SplitFrom(sql, ranges, lo) && earlier <= lo
    ensures SplitFrom(sql, ranges, earlier)
  {}

  lemma PieceTrimmed(sql: string, lo: nat, hi: nat, keep: string -> bool)
    requires lo <= hi <= |sql|
    ensures Piece(sql, lo, hi, keep).Some? ==> Trimmed(sql, Piece(sql, lo, hi, keep).value, lo, hi)
  {}

  lemma FrontSplit(sql: string, piece: Option<Range>, ranges: seq<Range>, lo: nat, hi: nat)
    requires lo <= hi <= |sql| && SplitFrom(sql, ranges, hi + 1)
    requires piece.Some? ==> Trimmed(sql, piece.value, lo, hi)
    ensures SplitFrom(sql, Front(piece, ranges), lo)
  {
    if piece.Some? {
      assert ([piece.value] + ranges)[1..] == ranges;
      SplitFromEarlier(sql, ranges, hi + 1, piece.value.to + 1);
    } else {
      SplitFromEarlier(sql, ranges, hi + 1, lo);
    }
  }

  lemma {:induction false} ChunksSplit(sql: string, start: nat, i: nat, cuts: set<nat>, keep: string -> bool)
    requires start <= i <= |sql|
    ensures SplitFrom(sql, Chunks(sql, start, i, cuts, keep), start)
    decreases |sql| - i
  {
    if i == |sql| {
      PieceTrimmed(sql, start, i, keep);
      FrontSplit(sql, Piece(sql, start, i, keep), [], start, i);
    } else if i in cuts {
      PieceTrimmed(sql, start, i, keep);
      ChunksSplit(sql, i + 1, i + 1, cuts, keep);
      FrontSplit(sql, Piece(sql, start, i, keep), Chunks(sql, i + 1, i + 1, cuts, keep), start, i);
    } else {
      ChunksSplit(sql, start, i + 1, cuts, keep);
    }
  }

  /** Whatever the cuts are, the ranges are well split. */
  lemma SplitAtIsWellSplit(sql: string, cuts: set<nat>, keep: string -> bool)
    ensures WellSplit(sql, SplitAt(sql, cuts, keep))
  {
    ChunksSplit(sql, 0, 0, cuts, keep);
    SplitFromIsWellSplit(sql, SplitAt(sql, cuts, keep), 0);
  }

  // ----- the ranges are the pieces between the cuts -----

  /** `[lo, hi)` is a stretch of the script without a cut, from a cut or the start to a cut or the end. */
  ghost predicate BetweenCuts(sql: string, cuts: set<nat>, lo: nat, hi: nat) {
    && lo <= hi <= |sql|
    && (lo == 0 || lo - 1 in cuts)
    && (hi == |sql| || hi in cuts)
    && (forall k :: lo <= k < hi ==> k !in cuts)
  }

  lemma BetweenCutsIsUnique(sql: string, cuts: set<nat>, lo: nat, hi: nat, start: nat, end: nat)
    requires BetweenCuts(sql, cuts, lo, hi) && BetweenCuts(sql, cuts, start, end) && start <= lo
    ensures (lo == start && hi == end) || end < lo
  {
  }

  lemma {:induction false} ChunksArePieces(sql: string, start: nat, i: nat, cuts: set<nat>, keep: string -> bool,
      r: Range)
    requires start <= i <= |sql| && (start == 0 || start - 1 in cuts)
    requires forall k :: start <= k < i ==> k !in cuts
    ensures r in Chunks(sql, start, i, cuts, keep) <==>
      exists lo, hi :: start <= lo && BetweenCuts(sql, cuts, lo, hi) && Piece(sql, lo, hi, keep) == Some(r)
    decreases |sql| - i
  {
    if i == |sql| || i in cuts {
      assert BetweenCuts(sql, cuts, start, i);
      forall lo, hi | start <= lo && BetweenCuts(sql, cuts, lo, hi) ensures (lo == start && hi == i) || i < lo {
        BetweenCutsIsUnique(sql, cuts, lo, hi, start, i);
      }
      if i < |sql| { ChunksArePieces(sql, i + 1, i + 1, cuts, keep, r); }
    } else {
      ChunksArePieces(sql, start, i + 1, cuts, keep, r);
    }
  }

  /** The ranges are exactly the kept pieces of the stretches between cuts. */
  lemma SplitAtIsThePieces(sql: string, cuts: set<nat>, keep: string -> bool, r: Range)
    ensures r in SplitAt(sql, cuts, keep) <==>
      exists lo, hi :: BetweenCuts(sql, cuts, lo, hi) && Piece(sql, lo, hi, keep) == Some(r)
  {
    ChunksArePieces(sql, 0, 0, cuts, keep, r);
  }

  // ----- which places the ranges hold -----

  predicate VisibleAt(sql: string, k: nat) { k < |sql| && !IsSpace(sql[k]) }

  /** There is something else than blanks. */
  ghost predicate VisibleIn(sql: string, lo: nat, hi: nat) { exists k :: lo <= k < hi && VisibleAt(sql, k) }

  predicate Inside(r: Range, p: nat) { r.from <= p < r.to }

  ghost predicate Holds(ranges: seq<Range>, p: nat) { exists k :: 0 <= k < |ranges| && Inside(ranges[k], p) }

  ghost predicate HeldOnce(ranges: seq<Range>, p: nat) {
    Holds(ranges, p) && forall j, k :: 0 <= j < k < |ranges| && Inside(ranges[j], p) ==> !Inside(ranges[k], p)
  }

  lemma HeldInOne(sql: string, ranges: seq<Range>, p: nat)
    requires WellSplit(sql, ranges) && Holds(ranges, p)
    ensures HeldOnce(ranges, p)
  {}

  /** The stretch between cuts around a place that is not a cut. */
  lemma StretchAround(sql: string, cuts: set<nat>, p: nat) returns (lo: nat, hi: nat)
    requires p < |sql| && p !in cuts
    ensures BetweenCuts(sql, cuts, lo, hi) && lo <= p < hi
  {
    lo := p;
    while lo > 0 && lo - 1 !in cuts
      invariant lo <= p && forall k :: lo <= k <= p ==> k !in cuts
    {
      lo := lo - 1;
    }
    hi := p + 1;
    while hi < |sql| && hi !in cuts
      invariant p < hi <= |sql| && forall k :: lo <= k < hi ==> k !in cuts
    {
      hi := hi + 1;
    }
  }

  /** What trimming leaves of a stretch: from its first visible character to its last. */
  lemma TrimmedHolds(sql: string, lo: nat, hi: nat, p: nat)
    requires lo <= p < hi <= |sql|
    ensures var f := SkipSpaces(sql, lo, hi);
      f <= p < BackSpaces(sql, f, hi) <==> VisibleAt(sql, p) || (VisibleIn(sql, lo, p) && VisibleIn(sql, p, hi))
  {
    var f := SkipSpaces(sql, lo, hi);
    var t := BackSpaces(sql, f, hi);
    forall k | lo <= k < f ensures !VisibleAt(sql, k) { SkipsBlanks(sql, lo, hi, k); }
    forall k | t <= k < hi ensures !VisibleAt(sql, k) { BacksBlanks(sql, f, hi, k); }
    if f <= p < t { assert VisibleAt(sql, f) && VisibleAt(sql, t - 1); }
  }

  /** A place that is no cut is in a range exactly when its stretch is kept and trimming leaves it. */
  lemma PlaceIsHeld(sql: string, cuts: set<nat>, keep: string -> bool, lo: nat, hi: nat, p: nat)
    requires BetweenCuts(sql, cuts, lo, hi) && lo <= p < hi
    ensures Holds(SplitAt(sql, cuts, keep), p) <==>
      Piece(sql, lo, hi, keep).Some? && (VisibleAt(sql, p) || (VisibleIn(sql, lo, p) && VisibleIn(sql, p, hi)))
  {
    var ranges, piece := SplitAt(sql, cuts, keep), Piece(sql, lo, hi, keep);
    TrimmedHolds(sql, lo, hi, p);
    if Holds(ranges, p) {
      var k :| 0 <= k < |ranges| && Inside(ranges[k], p);
      SplitAtIsThePieces(sql, cuts, keep, ranges[k]);
      var start, end :| BetweenCuts(sql, cuts, start, end) && Piece(sql, start, end, keep) == Some(ranges[k]);
      SameStretch(sql, cuts, lo, hi, start, end, p);
    }
    if piece.Some? && Inside(piece.value, p) { SplitAtIsThePieces(sql, cuts, keep, piece.value); }
  }

  lemma SameStretch(sql: string, cuts: set<nat>, lo: nat, hi: nat, start: nat, end: nat, p: nat)
    requires BetweenCuts(sql, cuts, lo, hi) && BetweenCuts(sql, cuts, start, end) && lo <= p < hi && start <= p < end
    ensures lo == start && hi == end
  {
    if start <= lo {
      BetweenCutsIsUnique(sql, cuts, lo, hi, start, end);
    } else {
      BetweenCutsIsUnique(sql, cuts, start, end, lo, hi);
    }
  }

  // ----- a script made of two scripts -----

  function ShiftPiece(piece: Option<Range>, d: nat): Option<Range> {
    if piece.Some? then Some(Range(piece.value.from + d, piece.value.to + d)) else None
  }

  function Shift(ranges: seq<Range>, d: nat): seq<Range> {
    seq(|ranges|, k requires 0 <= k < |ranges| => Range(ranges[k].from + d, ranges[k].to + d))
  }

  lemma ShiftFront(piece: Option<Range>, ranges: seq<Range>, d: nat)
    ensures Shift(Front(piece, ranges), d) == Front(ShiftPiece(piece, d), Shift(ranges, d))
  {}

  /** `own` is found in `whole` at `d`. */
  ghost predicate FoundAt(own: string, whole: string, d: nat) {
    d + |own| <= |whole| && forall k {:trigger own[k]} :: 0 <= k < |own| ==> whole[d + k] == own[k]
  }

  lemma FoundWhole(s: string)
    ensures FoundAt(s, s, 0)
  {}

  lemma FoundInParts(a: string, b: string, whole: string, d: nat)
    requires FoundAt(a + b, whole, d)
    ensures FoundAt(a, whole, d) && FoundAt(b, whole, d + |a|)
  {
    var ab := a + b;
    forall k {:trigger a[k]} | 0 <= k < |a| ensures whole[d + k] == a[k] { assert ab[k] == a[k]; }
    forall k {:trigger b[k]} | 0 <= k < |b| ensures whole[d + |a| + k] == b[k] {
      assert whole[d + (|a| + k)] == ab[|a| + k] == b[k];
    }
  }

  lemma {:induction false} SkipSpacesInside(own: string, whole: string, d: nat, lo: nat, hi: nat)
    requires FoundAt(own, whole, d) && lo <= hi <= |own|
    ensures SkipSpaces(whole, d + lo, d + hi) == d + SkipSpaces(own, lo, hi)
    decreases hi - lo
  {
    if lo < hi { SkipSpacesInside(own, whole, d, lo + 1, hi); }
  }

  lemma {:induction false} BackSpacesInside(own: string, whole: string, d: nat, lo: nat, hi: nat)
    requires FoundAt(own, whole, d) && lo <= hi <= |own|
    ensures BackSpaces(whole, d + lo, d + hi) == d + BackSpaces(own, lo, hi)
    decreases hi - lo
  {
    if lo < hi {
      assert whole[d + (hi - 1)] == own[hi - 1];
      BackSpacesInside(own, whole, d, lo, hi - 1);
    }
  }

  /** A piece depends on its own text only. */
  lemma PieceInside(own: string, whole: string, d: nat, lo: nat, hi: nat, keep: string -> bool)
    requires FoundAt(own, whole, d) && lo <= hi <= |own|
    ensures Piece(whole, d + lo, d + hi, keep) == ShiftPiece(Piece(own, lo, hi, keep), d)
  {
    SkipSpacesInside(own, whole, d, lo, hi);
    var f := SkipSpaces(own, lo, hi);
    BackSpacesInside(own, whole, d, f, hi);
    var t := BackSpaces(own, f, hi);
    assert whole[d + f..d + t] == own[f..t] by {
      forall k | f <= k < t ensures whole[d + k] == own[k] {}
    }
  }

  /** The cuts of a script of length `n` are those of a longer one, which has it at `d`. */
  ghost predicate SameCuts(own: set<nat>, cuts: set<nat>, n: nat, d: nat) {
    forall k: nat {:trigger InCuts(k, own)} :: k < n ==> (InCuts(k, own) <==> d + k in cuts)
  }

  ghost predicate InCuts(k: nat, cuts: set<nat>) { k in cuts }

  lemma SameCutAt(own: set<nat>, cuts: set<nat>, n: nat, d: nat, k: nat)
    requires SameCuts(own, cuts, n, d) && k < n
    ensures k in own <==> d + k in cuts
  {
    assert InCuts(k, own) <==> k in own;
  }

  lemma {:induction false} CutHere(sql: string, start: nat, i: nat, cuts: set<nat>, keep: string -> bool)
    requires start <= i < |sql| && i in cuts
    ensures Chunks(sql, start, i, cuts, keep) ==
      Front(Piece(sql, start, i, keep), Chunks(sql, i + 1, i + 1, cuts, keep))
  {}

  lemma {:induction false} NoCutHere(sql: string, start: nat, i: nat, cuts: set<nat>, keep: string -> bool)
    requires start <= i < |sql| && i !in cuts
    ensures Chunks(sql, start, i, cuts, keep) == Chunks(sql, start, i + 1, cuts, keep)
  {}

  lemma FrontInside(b: string, ab: string, d: nat, lo: nat, hi: nat, rest: seq<Range>, keep: string -> bool)
    requires FoundAt(b, ab, d) && lo <= hi <= |b|
    ensures Front(Piece(ab, d + lo, d + hi, keep), Shift(rest, d)) == Shift(Front(Piece(b, lo, hi, keep), rest), d)
  {
    PieceInside(b, ab, d, lo, hi, keep);
    ShiftFront(Piece(b, lo, hi, keep), rest, d);
  }

  lemma {:induction false} ChunksOfASuffix(b: string, ab: string, d: nat, start: nat, i: nat, own: set<nat>,
      cuts: set<nat>, keep: string -> bool)
    requires FoundAt(b, ab, d) && |ab| == d + |b| && start <= i <= |b| && SameCuts(own, cuts, |b|, d)
    ensures Chunks(ab, d + start, d + i, cuts, keep) == Shift(Chunks(b, start, i, own, keep), d)
    decreases |b| - i
  {
    if i == |b| {
      FrontInside(b, ab, d, start, i, [], keep);
    } else {
      SameCutAt(own, cuts, |b|, d, i);
      if i in own {
        ChunksOfASuffix(b, ab, d, i + 1, i + 1, own, cuts, keep);
        FrontInside(b, ab, d, start, i, Chunks(b, i + 1, i + 1, own, keep), keep);
        CutHere(ab, d + start, d + i, cuts, keep);
      } else {
        ChunksOfASuffix(b, ab, d, start, i + 1, own, cuts, keep);
        NoCutHere(ab, d + start, d + i, cuts, keep);
      }
    }
  }

  lemma PieceOfAPrefix(a: string, ac: string, lo: nat, hi: nat, keep: string -> bool)
    requires FoundAt(a, ac, 0) && lo <= hi <= |a|
    ensures Piece(ac, lo, hi, keep) == Piece(a, lo, hi, keep)
  {
    PieceInside(a, ac, 0, lo, hi, keep);
  }

  lemma FrontConcat(piece: Option<Range>, a: seq<Range>, b: seq<Range>)
    ensures Front(piece, a + b) == Front(piece, a) + b
  {}

  lemma {:induction false} ChunksOfAPrefix(a: string, ac: string, start: nat, i: nat, own: set<nat>, cuts: set<nat>,
      keep: string -> bool)
    requires FoundAt(a, ac, 0) && |a| < |ac| && start <= i <= |a|
    requires SameCuts(own, cuts, |a|, 0)
    requires |a| in cuts
    ensures Chunks(ac, start, i, cuts, keep) == Chunks(a, start, i, own, keep)
      + Chunks(ac, |a| + 1, |a| + 1, cuts, keep)
    decreases |a| - i
  {
    var rest := Chunks(ac, |a| + 1, |a| + 1, cuts, keep);
    assert InCuts(i, own) <==> i in own;
    if i == |a| {
      PieceOfAPrefix(a, ac, start, i, keep);
      FrontConcat(Piece(a, start, i, keep), [], rest);
      assert [] + rest == rest;
    } else if i in own {
      PieceOfAPrefix(a, ac, start, i, keep);
      ChunksOfAPrefix(a, ac, i + 1, i + 1, own, cuts, keep);
      FrontConcat(Piece(a, start, i, keep), Chunks(a, i + 1, i + 1, own, keep), rest);
    } else {
      ChunksOfAPrefix(a, ac, start, i + 1, own, cuts, keep);
    }
  }

  /** A script cut right after `a`, at a semicolon, is split as `a` and what comes after the semicolon are. */
  lemma SplitOfTwoScripts(a: string, b: string, sql: string, cutsA: set<nat>, cutsB: set<nat>, cuts: set<nat>,
      keep: string -> bool)
    requires FoundAt(a, sql, 0) && FoundAt(b, sql, |a| + 1) && |sql| == |a| + 1 + |b|
    requires |a| in cuts && SameCuts(cutsA, cuts, |a|, 0) && SameCuts(cutsB, cuts, |b|, |a| + 1)
    ensures SplitAt(sql, cuts, keep) == SplitAt(a, cutsA, keep) + Shift(SplitAt(b, cutsB, keep), |a| + 1)
  {
    ChunksOfAPrefix(a, sql, 0, 0, cutsA, cuts, keep);
    ChunksOfASuffix(b, sql, |a| + 1, 0, 0, cutsB, cuts, keep);
  }

  // ----- the statement at the cursor -----

  /** The places in a statement, at its end and on its semicolon. */
  predicate AtCursor(r: Range, pos: nat) { r.from <= pos <= r.to + 1 }

  /**
   * The range for a cursor: the first one that holds `pos` or ends right before it,
   * else the last one before `pos`, else the first of all.
   */
  method StatementAt(ranges: seq<Range>, pos: nat) returns (found: Option<Range>)
    ensures found.None? <==> ranges == []
    ensures forall k | 0 <= k < |ranges| && AtCursor(ranges[k], pos)
      && (forall j :: 0 <= j < k ==> !AtCursor(ranges[j], pos)) ::
      found == Some(ranges[k])
    ensures (forall j :: 0 <= j < |ranges| ==> !AtCursor(ranges[j], pos)) ==>
      forall k | 0 <= k < |ranges| && ranges[k].to < pos && (forall j :: k < j < |ranges| ==> pos <= ranges[j].to) ::
        found == Some(ranges[k])
    ensures ranges != [] && (forall j :: 0 <= j < |ranges| ==> !AtCursor(ranges[j], pos) && pos <= ranges[j].to)
      ==> found == Some(ranges[0])
  {
    if |ranges| == 0 { return None; }
    var candidate: Option<Range> := None;
    for k := 0 to |ranges|
      invariant forall j :: 0 <= j < k ==> !AtCursor(ranges[j], pos)
      invariant candidate.None? ==> forall j :: 0 <= j < k ==> pos <= ranges[j].to
      invariant candidate.Some? ==>
        exists c ::
          0 <= c < k && candidate == Some(ranges[c]) && ranges[c].to < pos && forall j ::
          c < j < k ==> pos <= ranges[j].to
    {
      if AtCursor(ranges[k], pos) { return Some(ranges[k]); }
      if ranges[k].to < pos { candidate := Some(ranges[k]); }
    }
    return if candidate.Some? then candidate else Some(ranges[0]);
  }

  /** In a well split script, the cursor at the end of a statement, or on its semicolon, is in that statement. */
  method StatementAtItsEnd(sql: string, ranges: seq<Range>, k: nat, pos: nat) returns (found: Option<Range>)
    requires WellSplit(sql, ranges) && k < |ranges|
    requires ranges[k].from < pos <= ranges[k].to + 1
    ensures found == Some(ranges[k])
  {
    found := StatementAt(ranges, pos);
  }
}

/** Characters and substrings, the way the JavaScript of the interface tests them. */
module Text {
  datatype Option<+T> = None | Some(value: T)

  /** The class `\s` of a regular expression, which is also what `trim` removes. */
  const SPACES: string :=
    " \t\n\U{0B}\U{0C}\r\U{A0}\U{1680}\U{2000}\U{2001}\U{2002}\U{2003}\U{2004}\U{2005}\U{2006}\U{2007}\U{2008}"
    + "\U{2009}\U{200A}\U{2028}\U{2029}\U{202F}\U{205F}\U{3000}\U{FEFF}"

  predicate IsSpace(c: char) { Among(SPACES, |SPACES|, c) }

  /** Whether `c` is one of the first `n` characters of `s`. */
  predicate Among(s: string, n: nat, c: char)
    requires n <= |s|
  {
    n > 0 && (s[n - 1] == c || Among(s, n - 1, c))
  }

  lemma {:induction false} AmongIs(s: string, n: nat, c: char)
    requires n <= |s|
    ensures Among(s, n, c) <==> exists k :: 0 <= k < n && s[k] == c
  {
    if n > 0 { AmongIs(s, n - 1, c); }
  }

  lemma SpaceIs(k: nat)
    requires k < |SPACES|
    ensures IsSpace(SPACES[k])
  {
    AmongIs(SPACES, |SPACES|, SPACES[k]);
  }

  lemma CommonSpaces()
    ensures IsSpace(' ') && IsSpace('\t') && IsSpace('\n') && IsSpace('\r')
  {
    SpaceIs(0);
    SpaceIs(1);
    SpaceIs(2);
    SpaceIs(5);
  }

  lemma NotSpace(c: char)
    requires '!' <= c <= '~'
    ensures !IsSpace(c)
  {
    AmongIs(SPACES, |SPACES|, c);
    assert forall k :: 0 <= k < |SPACES| ==> SPACES[k] < '!' || SPACES[k] > '~';
  }

  predicate IsDigit(c: char) { '0' <= c <= '9' }

  predicate IsLetter(c: char) { 'a' <= c <= 'z' || 'A' <= c <= 'Z' }

  /** The class `\w` of a regular expression. */
  predicate IsWord(c: char) { IsLetter(c) || IsDigit(c) || c == '_' }

  function UpperChar(c: char): char {
    if 'a' <= c <= 'z' then ((c as int) - 32) as char else c
  }

  /** ASCII upper case. */
  function Upper(s: string): (u: string)
    ensures |u| == |s|
    ensures forall k :: 0 <= k < |s| ==> u[k] == UpperChar(s[k])
  {
    seq(|s|, i requires 0 <= i < |s| => UpperChar(s[i]))
  }

  predicate MatchAt(s: string, pat: string, i: nat) {
    i + |pat| <= |s| && forall k {:trigger pat[k]} :: 0 <= k < |pat| ==> s[i + k] == pat[k]
  }

  /** `s.indexOf(pat, i)` for a pattern that is not empty. */
  function IndexOf(s: string, pat: string, i: nat): (j: int)
    requires pat != ""
    ensures j == -1 || (i <= j && MatchAt(s, pat, j))
    decreases |s| - i
  {
    if |s| <= i then -1
    else if MatchAt(s, pat, i) then i
    else IndexOf(s, pat, i + 1)
  }

  lemma {:induction false} IndexOfIsFirst(s: string, pat: string, i: nat, k: nat)
    requires pat != "" && i <= k && (IndexOf(s, pat, i) == -1 || k < IndexOf(s, pat, i))
    ensures !MatchAt(s, pat, k)
    decreases |s| - i
  {
    if i < k && i < |s| { IndexOfIsFirst(s, pat, i + 1, k); }
  }

  lemma {:induction false} IndexOfIs(s: string, pat: string, i: nat, j: nat)
    requires pat != "" && i <= j && MatchAt(s, pat, j)
    requires forall k: nat :: i <= k < j ==> !MatchAt(s, pat, k)
    ensures IndexOf(s, pat, i) == j
    decreases j - i
  {
    if i < j { IndexOfIs(s, pat, i + 1, j); }
  }

  lemma MatchOne(s: string, pat: string, k: nat)
    requires |pat| == 1
    ensures MatchAt(s, pat, k) <==> k < |s| && s[k] == pat[0]
  {
    if MatchAt(s, pat, k) { assert s[k + 0] == pat[0]; }
  }

  /** Two characters in a row, read one by one. */
  lemma MatchTwo(s: string, pat: string, k: nat)
    requires |pat| == 2
    ensures MatchAt(s, pat, k) <==> k + 2 <= |s| && s[k] == pat[0] && s[k + 1] == pat[1]
  {
    if MatchAt(s, pat, k) { assert s[k + 0] == pat[0] && s[k + 1] == pat[1]; }
  }

  ghost predicate Contains(s: string, pat: string) {
    exists i: nat :: MatchAt(s, pat, i)
  }

  predicate Blank(s: string) { forall k :: 0 <= k < |s| ==> IsSpace(s[k]) }

  /** The first position from `lo` on that is not blank, or `hi`. */
  function SkipSpaces(s: string, lo: nat, hi: nat): (f: nat)
    requires lo <= hi <= |s|
    ensures lo <= f <= hi
    ensures f < hi ==> !IsSpace(s[f])
    decreases |s| - lo
  {
    if lo < hi && IsSpace(s[lo]) then SkipSpaces(s, lo + 1, hi) else lo
  }

  /** The end of `s[lo..hi]` without its trailing blanks. */
  function BackSpaces(s: string, lo: nat, hi: nat): (t: nat)
    requires lo <= hi <= |s|
    ensures lo <= t <= hi
    ensures lo < t ==> !IsSpace(s[t - 1])
    decreases hi
  {
    if lo < hi && IsSpace(s[hi - 1]) then BackSpaces(s, lo, hi - 1) else hi
  }

  /** The first place that is not blank. */
  lemma {:induction false} SkipSpacesIs(s: string, lo: nat, hi: nat, f: nat)
    requires lo <= f <= hi <= |s|
    requires forall k :: lo <= k < f ==> IsSpace(s[k])
    requires f < hi ==> !IsSpace(s[f])
    ensures SkipSpaces(s, lo, hi) == f
    decreases f - lo
  {
    if lo < f { SkipSpacesIs(s, lo + 1, hi, f); }
  }

  lemma {:induction false} SkipsBlanks(s: string, lo: nat, hi: nat, k: nat)
    requires lo <= hi <= |s| && lo <= k < SkipSpaces(s, lo, hi)
    ensures IsSpace(s[k])
    decreases k - lo
  {
    if lo < k { SkipsBlanks(s, lo + 1, hi, k); }
  }

  lemma {:induction false} BackSpacesIs(s: string, lo: nat, hi: nat, t: nat)
    requires lo <= t <= hi <= |s|
    requires forall k :: t <= k < hi ==> IsSpace(s[k])
    requires lo < t ==> !IsSpace(s[t - 1])
    ensures BackSpaces(s, lo, hi) == t
    decreases hi - t
  {
    if t < hi { BackSpacesIs(s, lo, hi - 1, t); }
  }

  lemma {:induction false} BacksBlanks(s: string, lo: nat, hi: nat, k: nat)
    requires lo <= hi <= |s| && BackSpaces(s, lo, hi) <= k < hi
    ensures IsSpace(s[k])
    decreases hi - k
  {
    if k < hi - 1 { BacksBlanks(s, lo, hi - 1, k); }
  }

  function TrimEnd(s: string): string { s[..BackSpaces(s, 0, |s|)] }

  function TrimStart(s: string): string { s[SkipSpaces(s, 0, |s|)..] }

  /** `s` with every `c` doubled. */
  function Double(s: string, c: char): string {
    if s == "" then "" else (if s[0] == c then [c, c] else [s[0]]) + Double(s[1..], c)
  }

  /** The parts with `sep` between. */
  function Join(parts: seq<string>, sep: string): string {
    if |parts| == 0 then "" else if |parts| == 1 then parts[0] else parts[0] + sep + Join(parts[1..], sep)
  }
}

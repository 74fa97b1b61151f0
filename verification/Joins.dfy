/** Texts joined by a separator, and where their parts lie in a longer text. */
module Joins {
  import opened Text
  import opened Statements

  lemma MatchIsFound(s: string, text: string, i: nat)
    requires FoundAt(text, s, i)
    ensures MatchAt(s, text, i)
  {}

  /** The parts from `k` on lie in the text from `i` to `e`, with separators between and none behind. */
  ghost predicate PartsLie(s: string, i: nat, parts: seq<string>, k: nat, sep: string, e: nat)
    decreases |parts| - k
  {
    k < |parts| && FoundAt(parts[k], s, i) &&
    var m := i + |parts[k]|;
    if k + 1 == |parts| then m == e && !MatchAt(s, sep, m)
    else MatchAt(s, sep, m) && PartsLie(s, m + |sep|, parts, k + 1, sep, e)
  }

  lemma JoinOf(parts: seq<string>, k: nat, sep: string)
    requires k < |parts|
    ensures Join(parts[k..], sep) == if k + 1 == |parts| then parts[k] else parts[k] + sep + Join(parts[k + 1..], sep)
  {
    var rest := parts[k..];
    assert rest[0] == parts[k] && rest[1..] == parts[k + 1..];
  }

  lemma {:induction false} JoinLies(s: string, i: nat, parts: seq<string>, k: nat, sep: string, text: string)
    requires k < |parts| && text == Join(parts[k..], sep) && FoundAt(text, s, i) && !MatchAt(s, sep, i + |text|)
    ensures PartsLie(s, i, parts, k, sep, i + |text|)
    decreases |parts| - k
  {
    JoinOf(parts, k, sep);
    if k + 1 < |parts| {
      var more := Join(parts[k + 1..], sep);
      PartInFront(s, i, parts[k], sep, more, text);
      JoinLies(s, i + |parts[k]| + |sep|, parts, k + 1, sep, more);
    }
  }

  lemma PartInFront(s: string, i: nat, part: string, sep: string, more: string, text: string)
    requires text == part + sep + more && FoundAt(text, s, i)
    ensures FoundAt(part, s, i) && MatchAt(s, sep, i + |part|) && FoundAt(more, s, i + |part| + |sep|)
    ensures |text| == |part| + |sep| + |more|
  {
    FoundInParts(part + sep, more, s, i);
    FoundInParts(part, sep, s, i);
    MatchIsFound(s, sep, i + |part|);
  }

  /** The parts from `k` on. */
  function From<T>(s: seq<T>, k: nat): seq<T>
    decreases |s| - k
  {
    if k >= |s| then [] else [s[k]] + From(s, k + 1)
  }

  lemma {:induction false} FromIs<T>(s: seq<T>, k: nat)
    requires k <= |s|
    ensures From(s, k) == s[k..]
    decreases |s| - k
  {
    if k < |s| {
      FromIs(s, k + 1);
      assert s[k..] == [s[k]] + s[k + 1..];
    }
  }

  lemma AllOf<T>(s: seq<T>)
    ensures From(s, 0) == s
  {
    FromIs(s, 0);
  }

  lemma FromLast<T>(s: seq<T>, k: nat)
    requires k + 1 == |s|
    ensures From(s, k) == [s[k]]
  {
    FromIs(s, k);
  }
}

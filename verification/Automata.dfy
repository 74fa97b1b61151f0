/**
 * Splitting a text with an automaton that reads one character at a time: the cuts are the
 * semicolons met in a state that counts as code.
 */
module Automata {
  import opened Text
  import opened Statements

  datatype Automaton<!S> = Automaton(start: S, step: (S, char) -> S, code: S -> bool)

  /** The state before position `i`. */
  ghost function StateAt<S>(m: Automaton<S>, sql: string, i: nat): S
    requires i <= |sql|
  {
    if i == 0 then m.start else m.step(StateAt(m, sql, i - 1), sql[i - 1])
  }

  /** The semicolons that are code. */
  ghost function Cuts<S>(m: Automaton<S>, sql: string): set<nat> {
    set k: nat | k < |sql| && sql[k] == ';' && m.code(StateAt(m, sql, k))
  }

  ghost function Split<S>(m: Automaton<S>, sql: string, keep: string -> bool): seq<Range> {
    SplitAt(sql, Cuts(m, sql), keep)
  }

  /** The state before `i` is `s`. */
  ghost predicate At<S>(m: Automaton<S>, sql: string, i: nat, s: S) {
    i <= |sql| && s == StateAt(m, sql, i)
  }

  /** From `i` to `j` there is no semicolon that is code. */
  ghost predicate NoCuts<S>(m: Automaton<S>, sql: string, i: nat, j: nat) {
    i <= j <= |sql| && forall k :: i <= k < j ==> k !in Cuts(m, sql)
  }

  /** A reader that was at `start` is at `i` in state `s`, past no cut. */
  ghost predicate Walked<S>(m: Automaton<S>, sql: string, start: nat, i: nat, s: S) {
    At(m, sql, i, s) && NoCuts(m, sql, start, i)
  }

  lemma Walk<S>(m: Automaton<S>, sql: string, start: nat, i: nat, s: S, t: S)
    requires Walked(m, sql, start, i, s) && i < |sql| && t == m.step(s, sql[i]) && (sql[i] != ';' || !m.code(s))
    ensures Walked(m, sql, start, i + 1, t)
  {}

  lemma Advance<S>(m: Automaton<S>, sql: string, i: nat, s: S)
    requires At(m, sql, i, s) && i < |sql|
    ensures At(m, sql, i + 1, m.step(s, sql[i]))
    ensures i in Cuts(m, sql) <==> sql[i] == ';' && m.code(s)
  {}

  lemma {:induction false} StateAtPrefix<S>(m: Automaton<S>, a: string, sql: string, i: nat)
    requires FoundAt(a, sql, 0) && i <= |a|
    ensures StateAt(m, sql, i) == StateAt(m, a, i)
  {
    if i > 0 {
      StateAtPrefix(m, a, sql, i - 1);
      assert sql[0 + (i - 1)] == a[i - 1];
    }
  }

  lemma {:induction false} StateAtSuffix<S>(m: Automaton<S>, b: string, sql: string, d: nat, i: nat)
    requires FoundAt(b, sql, d) && i <= |b| && StateAt(m, sql, d) == m.start
    ensures StateAt(m, sql, d + i) == StateAt(m, b, i)
  {
    if i > 0 {
      StateAtSuffix(m, b, sql, d, i - 1);
      assert sql[d + (i - 1)] == b[i - 1];
    }
  }

  lemma CutsOfAPrefix<S>(m: Automaton<S>, a: string, sql: string)
    requires FoundAt(a, sql, 0)
    ensures SameCuts(Cuts(m, a), Cuts(m, sql), |a|, 0)
  {
    forall k: nat | k < |a| ensures InCuts(k, Cuts(m, a)) <==> 0 + k in Cuts(m, sql) {
      StateAtPrefix(m, a, sql, k);
      assert sql[0 + k] == a[k];
    }
  }

  lemma CutsOfASuffix<S>(m: Automaton<S>, b: string, sql: string, d: nat)
    requires FoundAt(b, sql, d) && StateAt(m, sql, d) == m.start
    ensures SameCuts(Cuts(m, b), Cuts(m, sql), |b|, d)
  {
    forall k: nat | k < |b| ensures InCuts(k, Cuts(m, b)) <==> d + k in Cuts(m, sql) {
      CutOfASuffix(m, b, sql, d, k);
    }
  }

  lemma CutOfASuffix<S>(m: Automaton<S>, b: string, sql: string, d: nat, k: nat)
    requires FoundAt(b, sql, d) && StateAt(m, sql, d) == m.start && k < |b|
    ensures k in Cuts(m, b) <==> d + k in Cuts(m, sql)
  {
    StateAtSuffix(m, b, sql, d, k);
    assert sql[d + k] == b[k];
  }

  /** A semicolon in code that brings the automaton back to its start ends a script and starts another. */
  lemma SplitAtASemicolon<S>(m: Automaton<S>, a: string, b: string, sql: string, keep: string -> bool)
    requires FoundAt(a, sql, 0) && FoundAt(b, sql, |a| + 1) && |sql| == |a| + 1 + |b| && sql[|a|] == ';'
    requires m.code(StateAt(m, a, |a|)) && m.step(StateAt(m, a, |a|), ';') == m.start
    ensures Split(m, sql, keep) == Split(m, a, keep) + Shift(Split(m, b, keep), |a| + 1)
  {
    StateAtPrefix(m, a, sql, |a|);
    CutsOfAPrefix(m, a, sql);
    CutsOfASuffix(m, b, sql, |a| + 1);
    SplitOfTwoScripts(a, b, sql, Cuts(m, a), Cuts(m, b), Cuts(m, sql), keep);
  }

  /**
   * Splitting composes: a script that ends in code, a semicolon that brings the automaton back to
   * its start, and another script, are split as the two scripts are.
   */
  lemma SplitOfConcat<S>(m: Automaton<S>, a: string, b: string, keep: string -> bool)
    requires m.code(StateAt(m, a, |a|)) && m.step(StateAt(m, a, |a|), ';') == m.start
    ensures Split(m, a + ";" + b, keep) == Split(m, a, keep) + Shift(Split(m, b, keep), |a| + 1)
  {
    SplitAtASemicolon(m, a, b, a + ";" + b, keep);
  }
}

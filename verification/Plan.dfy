/** The rows of a SQLite query plan, each under its parent. */
module Plan {
  import opened Text

  datatype Row = Row(id: int, parent: int, detail: string)

  datatype Line = Line(depth: nat, detail: string)

  predicate HasId(rows: seq<Row>, id: int) { exists k :: 0 <= k < |rows| && rows[k].id == id }

  /** The row that a row is shown under; 0 for one at the top, or whose parent is not in the plan. */
  function ParentOf(rows: seq<Row>, i: nat): int
    requires i < |rows|
  {
    if HasId(rows, rows[i].parent) then rows[i].parent else 0
  }

  /** Ids are the rows' own, and none is 0. */
  ghost predicate OwnIds(rows: seq<Row>) {
    && (forall j, k :: 0 <= j < k < |rows| ==> rows[j].id != rows[k].id)
    && (forall k :: 0 <= k < |rows| ==> rows[k].id != 0)
  }

  // ----- paths from the top -----

  /** The rows above a row, from the top down, as their positions: each is shown under the one before. */
  ghost predicate Path(rows: seq<Row>, path: seq<nat>) {
    && (forall n :: 0 <= n < |path| ==> path[n] < |rows|)
    && (forall n :: 0 <= n < |path| ==> Under(rows, path, n))
  }

  ghost predicate Under(rows: seq<Row>, path: seq<nat>, n: nat)
    requires n < |path| && path[n] < |rows| && (n > 0 ==> path[n - 1] < |rows|)
  {
    ParentOf(rows, path[n]) == if n == 0 then 0 else rows[path[n - 1]].id
  }

  /** The id that the children of a path are shown under. */
  function Last(rows: seq<Row>, path: seq<nat>): int
    requires forall n :: 0 <= n < |path| ==> path[n] < |rows|
  {
    if path == [] then 0 else rows[path[|path| - 1]].id
  }

  lemma {:induction false} PathsDiffer(rows: seq<Row>, path: seq<nat>, m: nat, n: nat)
    requires OwnIds(rows) && Path(rows, path) && m < n < |path|
    ensures path[m] != path[n]
    decreases m
  {
    assert Under(rows, path, m) && Under(rows, path, n);
    if m > 0 { PathsDiffer(rows, path, m - 1, n - 1); }
  }

  /** However the parent links run, also in circles, a path is no longer than there are rows. */
  lemma PathIsShort(rows: seq<Row>, path: seq<nat>)
    requires OwnIds(rows) && Path(rows, path)
    ensures |path| <= |rows|
  {
    forall m, n | 0 <= m < n < |path| ensures path[m] != path[n] { PathsDiffer(rows, path, m, n); }
    DistinctAreFew(path, |rows|);
  }

  lemma DistinctAreFew(path: seq<nat>, count: nat)
    requires forall n :: 0 <= n < |path| ==> path[n] < count
    requires forall m, n :: 0 <= m < n < |path| ==> path[m] != path[n]
    ensures |path| <= count
  {
    SizeOfPlaces(path, |path|);
    SizeOfSubset(Places(path, |path|), UpTo(count));
  }

  ghost function Places(path: seq<nat>, n: nat): set<nat>
    requires n <= |path|
  {
    set k | 0 <= k < n :: path[k]
  }

  lemma {:induction false} SizeOfPlaces(path: seq<nat>, n: nat)
    requires n <= |path| && forall m, k :: 0 <= m < k < |path| ==> path[m] != path[k]
    ensures |Places(path, n)| == n
  {
    if n > 0 {
      SizeOfPlaces(path, n - 1);
      assert Places(path, n) == Places(path, n - 1) + {path[n - 1]};
    }
  }

  ghost function UpTo(count: nat): (all: set<nat>)
    ensures |all| == count && forall k: nat :: k in all <==> k < count
  {
    if count == 0 then {} else UpTo(count - 1) + {count - 1}
  }

  lemma {:induction false} SizeOfSubset(a: set<nat>, b: set<nat>)
    requires a <= b
    ensures |a| <= |b|
    decreases |a|
  {
    if a != {} {
      var x :| x in a;
      SizeOfSubset(a - {x}, b - {x});
    }
  }

  lemma PathGrows(rows: seq<Row>, path: seq<nat>, i: nat)
    requires OwnIds(rows) && Path(rows, path) && i < |rows| && ParentOf(rows, i) == Last(rows, path)
    ensures Path(rows, path + [i]) && |path| < |rows|
  {
    var longer := path + [i];
    forall n | 0 <= n < |longer| ensures Under(rows, longer, n) {
      if n < |path| { assert Under(rows, path, n); }
    }
    PathIsShort(rows, longer);
  }

  // ----- the walk -----

  /** A row that is shown, by its position, and how deep. */
  datatype Shown = Shown(row: nat, depth: nat)

  /** The rows from `i` on under the last row of `path`, each with what is under it. */
  ghost function Visit(rows: seq<Row>, path: seq<nat>, i: nat): seq<Shown>
    requires OwnIds(rows) && Path(rows, path) && i <= |rows|
    decreases if |path| <= |rows| then |rows| - |path| else 0, |rows| - i
  {
    if i == |rows| then []
    else if ParentOf(rows, i) == Last(rows, path) then
      PathGrows(rows, path, i);
      [Shown(i, |path|)] + Visit(rows, path + [i], 0) + Visit(rows, path, i + 1)
    else Visit(rows, path, i + 1)
  }

  function LineOf(rows: seq<Row>, s: Shown): Line { Line(s.depth, if s.row < |rows| then rows[s.row].detail else "") }

  function LinesOf(rows: seq<Row>, shown: seq<Shown>): (lines: seq<Line>)
    ensures |lines| == |shown| && forall k :: 0 <= k < |shown| ==> lines[k] == LineOf(rows, shown[k])
  {
    seq(|shown|, k requires 0 <= k < |shown| => LineOf(rows, shown[k]))
  }

  // ----- the walk as the source does it -----

  /** The rows under a parent among the first `n`, in their order. */
  function ChildrenOf(rows: seq<Row>, n: nat, parent: int): seq<nat>
    requires n <= |rows|
  {
    if n == 0 then []
      else if ParentOf(rows, n - 1) == parent then ChildrenOf(rows, n - 1, parent) + [n - 1]
      else ChildrenOf(rows, n - 1, parent)
  }

  lemma {:induction false} ChildrenAre(rows: seq<Row>, n: nat, parent: int)
    requires n <= |rows|
    ensures var kids := ChildrenOf(rows, n, parent);
      && (forall k :: 0 <= k < |kids| ==> kids[k] < n && ParentOf(rows, kids[k]) == parent)
      && (forall j, k :: 0 <= j < k < |kids| ==> kids[j] < kids[k])
      && (forall c: nat {:trigger ParentOf(rows, c)} :: c < n && ParentOf(rows, c) == parent ==> c in kids)
  {
    if n > 0 { ChildrenAre(rows, n - 1, parent); }
  }

  function Kids(children: map<int, seq<nat>>, parent: int): seq<nat> {
    if parent in children then children[parent] else []
  }

  /** No row from `i` up to `j` is under the path. */
  lemma {:induction false} VisitSkips(rows: seq<Row>, path: seq<nat>, i: nat, j: nat)
    requires OwnIds(rows) && Path(rows, path) && i <= j <= |rows|
    requires forall c: nat {:trigger ParentOf(rows, c)} :: i <= c < j ==> ParentOf(rows, c) != Last(rows, path)
    ensures Visit(rows, path, i) == Visit(rows, path, j)
    decreases j - i
  {
    if i < j {
      assert ParentOf(rows, i) != Last(rows, path);
      VisitSkips(rows, path, i + 1, j);
    }
  }

  /** Where the search for the next child goes on after `k` of them. */
  function NextFrom(kids: seq<nat>, k: nat): nat
    requires k <= |kids|
  {
    if k == 0 then 0 else kids[k - 1] + 1
  }

  lemma Steady(kids: seq<nat>, j: nat, k: nat)
    requires (forall m, n :: 0 <= m < n < |kids| ==> kids[m] < kids[n]) && j <= k < |kids|
    ensures kids[j] <= kids[k]
  {}

  /** Each child is one of the first `k`, or none before the next. */
  lemma ChildIsBeforeOrAfter(rows: seq<Row>, parent: int, kids: seq<nat>, k: nat, c: nat)
    requires kids == ChildrenOf(rows, |rows|, parent) && k <= |kids| && c < |rows| && ParentOf(rows, c) == parent
    ensures c < NextFrom(kids, k) || (k < |kids| && kids[k] <= c)
  {
    ChildrenAre(rows, |rows|, parent);
    var j :| 0 <= j < |kids| && kids[j] == c;
    if j < k { Steady(kids, j, k - 1); } else { Steady(kids, k, j); }
  }

  lemma NextIsInRows(rows: seq<Row>, parent: int, kids: seq<nat>, k: nat)
    requires kids == ChildrenOf(rows, |rows|, parent) && k <= |kids|
    ensures NextFrom(kids, k) <= |rows|
    ensures k < |kids| ==> NextFrom(kids, k) <= kids[k] < |rows| && ParentOf(rows, kids[k]) == parent
  {
    ChildrenAre(rows, |rows|, parent);
  }

  lemma NoChildBetween(rows: seq<Row>, parent: int, kids: seq<nat>, k: nat, end: nat)
    requires kids == ChildrenOf(rows, |rows|, parent) && k <= |kids| && end == if k < |kids| then kids[k] else |rows|
    requires end <= |rows|
    ensures forall c: nat {:trigger ParentOf(rows, c)} :: NextFrom(kids, k) <= c < end ==> ParentOf(rows, c) != parent
  {
    forall c: nat {:trigger ParentOf(rows, c)} | NextFrom(kids, k) <= c < end ensures ParentOf(rows, c) != parent {
      if ParentOf(rows, c) == parent { ChildIsBeforeOrAfter(rows, parent, kids, k, c); }
    }
  }

  /** Up to the next child, or to the end, nothing is shown. */
  lemma {:induction false} VisitUpTo(rows: seq<Row>, path: seq<nat>, kids: seq<nat>, k: nat, end: nat)
    requires OwnIds(rows) && Path(rows, path) && kids == ChildrenOf(rows, |rows|, Last(rows, path)) && k <= |kids|
    requires end == if k < |kids| then kids[k] else |rows|
    ensures NextFrom(kids, k) <= end <= |rows| && Visit(rows, path, NextFrom(kids, k)) == Visit(rows, path, end)
  {
    NextIsInRows(rows, Last(rows, path), kids, k);
    NoChildBetween(rows, Last(rows, path), kids, k, end);
    VisitSkips(rows, path, NextFrom(kids, k), end);
  }

  /** What a child adds. */
  lemma {:induction false} VisitChild(rows: seq<Row>, path: seq<nat>, child: nat)
    requires OwnIds(rows) && Path(rows, path) && child < |rows| && ParentOf(rows, child) == Last(rows, path)
    ensures Path(rows, path + [child]) && |path| < |rows|
    ensures Visit(rows, path, child) == [Shown(child, |path|)] + Visit(rows, path + [child], 0)
      + Visit(rows, path, child + 1)
  {
    PathGrows(rows, path, child);
  }

  /** The lines of a child and of what is under it, and those of the children after it. */
  lemma {:induction false} LinesOfChild(rows: seq<Row>, path: seq<nat>, child: nat, out: seq<Line>)
    requires OwnIds(rows) && Path(rows, path) && child < |rows| && ParentOf(rows, child) == Last(rows, path)
    ensures Path(rows, path + [child]) && |path| < |rows|
    ensures out + LinesOf(rows, Visit(rows, path, child)) ==
      out + [LineOf(rows, Shown(child, |path|))] + LinesOf(rows, Visit(rows, path + [child], 0))
      + LinesOf(rows, Visit(rows, path, child + 1))
  {
    VisitChild(rows, path, child);
    LinesJoin(rows, out, Shown(child, |path|), Visit(rows, path + [child], 0), Visit(rows, path, child + 1));
  }

  method VisitRows(rows: seq<Row>, children: map<int, seq<nat>>, parent: int, depth: nat, lines: seq<Line>,
      ghost path: seq<nat>)
    returns (out: seq<Line>)
    requires OwnIds(rows) && Path(rows, path) && Last(rows, path) == parent && |path| == depth <= |rows|
    requires forall p {:trigger Kids(children, p)} :: Kids(children, p) == ChildrenOf(rows, |rows|, p)
    ensures out == lines + LinesOf(rows, Visit(rows, path, 0))
    decreases |rows| - |path|
  {
    var kids := Kids(children, parent);
    out := lines;
    ghost var all := lines + LinesOf(rows, Visit(rows, path, 0));
    for k := 0 to |kids|
      invariant NextFrom(kids, k) <= |rows|
      invariant out + LinesOf(rows, Visit(rows, path, NextFrom(kids, k))) == all
    {
      NextIsInRows(rows, parent, kids, k);
      var row := kids[k];
      VisitUpTo(rows, path, kids, k, row);
      LinesOfChild(rows, path, row, out);
      out := VisitRows(rows, children, rows[row].id, depth + 1, out + [Line(depth, rows[row].detail)], path + [row]);
    }
    VisitUpTo(rows, path, kids, |kids|, |rows|);
    assert out + LinesOf(rows, []) == out;
  }

  lemma LinesJoin(rows: seq<Row>, out: seq<Line>, first: Shown, under: seq<Shown>, rest: seq<Shown>)
    ensures out + LinesOf(rows, [first] + under + rest) == out + [LineOf(rows, first)] + LinesOf(rows, under)
      + LinesOf(rows, rest)
  {}

  /** All lines of a plan. */
  method SqlitePlanRows(rows: seq<Row>) returns (lines: seq<Line>)
    requires OwnIds(rows)
    ensures lines == LinesOf(rows, Visit(rows, [], 0))
  {
    var children: map<int, seq<nat>> := map[];
    for i := 0 to |rows|
      invariant forall p {:trigger Kids(children, p)} :: Kids(children, p) == ChildrenOf(rows, i, p)
    {
      var parent := ParentOf(rows, i);
      var before := children;
      children := children[parent := Kids(children, parent) + [i]];
      forall p ensures Kids(children, p) == ChildrenOf(rows, i + 1, p) {
        assert Kids(before, p) == ChildrenOf(rows, i, p);
      }
    }
    lines := VisitRows(rows, children, 0, 0, [], []);
  }

  // ----- what is shown -----

  /** A path to the row at `k`, which goes on from `path` over a row at or after `i`. */
  ghost predicate Leads(rows: seq<Row>, path: seq<nat>, i: nat, q: seq<nat>, k: nat) {
    && Path(rows, q) && k < |rows| && ParentOf(rows, k) == Last(rows, q)
    && path <= q && i <= (q + [k])[|path|]
  }

  lemma {:induction false} ShownHasPath(rows: seq<Row>, path: seq<nat>, i: nat, s: Shown) returns (q: seq<nat>)
    requires OwnIds(rows) && Path(rows, path) && i <= |rows| && s in Visit(rows, path, i)
    ensures Leads(rows, path, i, q, s.row) && |q| == s.depth
    decreases if |path| <= |rows| then |rows| - |path| else 0, |rows| - i
  {
    if ParentOf(rows, i) == Last(rows, path) {
      PathGrows(rows, path, i);
      if s == Shown(i, |path|) {
        q := path;
      } else if s in Visit(rows, path + [i], 0) {
        q := ShownHasPath(rows, path + [i], 0, s);
        assert (q + [s.row])[|path|] == (path + [i])[|path|];
      } else {
        q := ShownHasPath(rows, path, i + 1, s);
      }
    } else {
      q := ShownHasPath(rows, path, i + 1, s);
    }
  }

  /** A row has one path at most. */
  lemma {:induction false} OnePath(rows: seq<Row>, p: seq<nat>, q: seq<nat>)
    requires OwnIds(rows) && Path(rows, p) && Path(rows, q) && Last(rows, p) == Last(rows, q)
    ensures p == q
    decreases |p|
  {
    if p != [] && q != [] {
      var m, n := |p| - 1, |q| - 1;
      assert p[m] == q[n];
      assert Under(rows, p, m) && Under(rows, q, n);
      Shorter(rows, p);
      Shorter(rows, q);
      OnePath(rows, p[..m], q[..n]);
      assert p == p[..m] + [p[m]] && q == q[..n] + [q[n]];
    }
  }

  lemma Shorter(rows: seq<Row>, path: seq<nat>)
    requires Path(rows, path) && path != []
    ensures Path(rows, path[..|path| - 1]) && ParentOf(rows, path[|path| - 1]) == Last(rows, path[..|path| - 1])
  {
    var less := path[..|path| - 1];
    assert Under(rows, path, |path| - 1);
    forall n | 0 <= n < |less| ensures Under(rows, less, n) { assert Under(rows, path, n); }
  }

  lemma {:induction false} ShownFrom(rows: seq<Row>, path: seq<nat>, i: nat, k: nat)
    requires OwnIds(rows) && Path(rows, path) && i <= k < |rows| && ParentOf(rows, k) == Last(rows, path)
    ensures Shown(k, |path|) in Visit(rows, path, i)
    ensures forall s :: Path(rows, path + [k]) && s in Visit(rows, path + [k], 0) ==> s in Visit(rows, path, i)
    decreases k - i
  {
    if i < k { ShownFrom(rows, path, i + 1, k); } else { PathGrows(rows, path, i); }
  }

  /** What is shown under a path is shown. */
  lemma {:induction false} ShownAtAll(rows: seq<Row>, path: seq<nat>, s: Shown)
    requires OwnIds(rows) && Path(rows, path) && s in Visit(rows, path, 0)
    ensures s in Visit(rows, [], 0)
    decreases |path|
  {
    if path != [] {
      var k := path[|path| - 1];
      Shorter(rows, path);
      assert path == path[..|path| - 1] + [k];
      ShownFrom(rows, path[..|path| - 1], 0, k);
      ShownAtAll(rows, path[..|path| - 1], s);
    }
  }

  /** The chain of parents of a row reaches the top in `depth` steps. */
  ghost predicate ReachesTop(rows: seq<Row>, k: nat, depth: nat) {
    k < |rows| && exists q :: Path(rows, q) && |q| == depth && ParentOf(rows, k) == Last(rows, q)
  }

  /** A row is shown exactly when its chain of parents reaches the top, and its depth is the length of that chain. */
  lemma ShownExactly(rows: seq<Row>, k: nat, depth: nat)
    requires OwnIds(rows)
    ensures Shown(k, depth) in Visit(rows, [], 0) <==> ReachesTop(rows, k, depth)
  {
    if Shown(k, depth) in Visit(rows, [], 0) {
      var q := ShownHasPath(rows, [], 0, Shown(k, depth));
    }
    if ReachesTop(rows, k, depth) {
      var q :| Path(rows, q) && |q| == depth && ParentOf(rows, k) == Last(rows, q);
      ShownFrom(rows, q, 0, k);
      ShownAtAll(rows, q, Shown(k, depth));
    }
  }

  ghost predicate NoneTwice(shown: seq<Shown>) { forall m, n :: 0 <= m < n < |shown| ==> shown[m].row != shown[n].row }

  lemma PathsLeadApart(rows: seq<Row>, p: seq<nat>, j: nat, q: seq<nat>, k: nat)
    requires OwnIds(rows) && j < |rows| && k < |rows| && Path(rows, p) && Path(rows, q)
    requires ParentOf(rows, j) == Last(rows, p) && ParentOf(rows, k) == Last(rows, q) && p + [j] != q + [k]
    ensures j != k
  {
    if j == k { OnePath(rows, p, q); }
  }

  /** What is shown from `i` on: the row at `i` is not under itself … */
  lemma NotUnderItself(rows: seq<Row>, path: seq<nat>, i: nat, b: Shown)
    requires OwnIds(rows) && Path(rows, path) && i < |rows| && ParentOf(rows, i) == Last(rows, path)
    requires Path(rows, path + [i]) && b in Visit(rows, path + [i], 0)
    ensures b.row != i
  {
    var q := ShownHasPath(rows, path + [i], 0, b);
    assert |q + [b.row]| > |path + [i]|;
    PathsLeadApart(rows, path, i, q, b.row);
  }

  /** … nor among the rows after it … */
  lemma NotAfterItself(rows: seq<Row>, path: seq<nat>, i: nat, b: Shown)
    requires OwnIds(rows) && Path(rows, path) && i < |rows| && ParentOf(rows, i) == Last(rows, path)
    requires b in Visit(rows, path, i + 1)
    ensures b.row != i
  {
    var q := ShownHasPath(rows, path, i + 1, b);
    assert (path + [i])[|path|] == i;
    PathsLeadApart(rows, path, i, q, b.row);
  }

  /** … and nothing is both under it and after it. */
  lemma NotUnderAndAfter(rows: seq<Row>, path: seq<nat>, i: nat, a: Shown, b: Shown)
    requires OwnIds(rows) && Path(rows, path) && i < |rows| && Path(rows, path + [i])
    requires a in Visit(rows, path + [i], 0) && b in Visit(rows, path, i + 1)
    ensures a.row != b.row
  {
    var p := ShownHasPath(rows, path + [i], 0, a);
    var q := ShownHasPath(rows, path, i + 1, b);
    assert (p + [a.row])[|path|] == (path + [i])[|path|];
    PathsLeadApart(rows, p, a.row, q, b.row);
  }

  lemma {:induction false} VisitShowsNoneTwice(rows: seq<Row>, path: seq<nat>, i: nat)
    requires OwnIds(rows) && Path(rows, path) && i <= |rows|
    ensures NoneTwice(Visit(rows, path, i))
    decreases if |path| <= |rows| then |rows| - |path| else 0, |rows| - i
  {
    if i < |rows| {
      VisitShowsNoneTwice(rows, path, i + 1);
      if ParentOf(rows, i) == Last(rows, path) {
        PathGrows(rows, path, i);
        VisitShowsNoneTwice(rows, path + [i], 0);
        var first, under, rest := [Shown(i, |path|)], Visit(rows, path + [i], 0), Visit(rows, path, i + 1);
        forall b: Shown | b in under + rest ensures b.row != i {
          if b in under { NotUnderItself(rows, path, i, b); } else { NotAfterItself(rows, path, i, b); }
        }
        forall a: Shown, b: Shown | a in under && b in rest ensures a.row != b.row {
          NotUnderAndAfter(rows, path, i, a, b);
        }
        JoinedShowsNoneTwice(first, under, rest);
      }
    }
  }

  lemma JoinedShowsNoneTwice(first: seq<Shown>, under: seq<Shown>, rest: seq<Shown>)
    requires |first| == 1 && NoneTwice(under) && NoneTwice(rest)
    requires forall b :: b in under + rest ==> b.row != first[0].row
    requires forall a, b :: a in under && b in rest ==> a.row != b.row
    ensures NoneTwice(first + under + rest)
  {
    var all := first + under + rest;
    forall m, n | 0 <= m < n < |all| ensures all[m].row != all[n].row {
      if m == 0 {
        assert all[n] == (under + rest)[n - 1];
      } else if m < 1 + |under| <= n {
        assert all[m] == under[m - 1] && all[n] == rest[n - 1 - |under|];
      }
    }
  }

  /** No row is shown twice. */
  lemma NoRowTwice(rows: seq<Row>)
    requires OwnIds(rows)
    ensures NoneTwice(Visit(rows, [], 0))
  {
    VisitShowsNoneTwice(rows, [], 0);
  }

  // ----- in reading order -----

  /** Where the parent of a line is: before it, one level up, and nothing that is not under it between. */
  ghost predicate ParentLine(rows: seq<Row>, shown: seq<Shown>, q: nat, p: nat) {
    && q < p < |shown| && shown[q].row < |rows| && shown[p].row < |rows|
    && rows[shown[q].row].id == ParentOf(rows, shown[p].row) && shown[q].depth + 1 == shown[p].depth
    && forall m: nat :: q < m < p ==> shown[p].depth <= shown[m].depth
  }

  lemma {:induction false} LinesAreDeep(rows: seq<Row>, path: seq<nat>, i: nat, s: Shown)
    requires OwnIds(rows) && Path(rows, path) && i <= |rows| && s in Visit(rows, path, i)
    ensures |path| <= s.depth && s.row < |rows|
    ensures s.depth == |path| ==> ParentOf(rows, s.row) == Last(rows, path)
  {
    var q := ShownHasPath(rows, path, i, s);
    if s.depth == |path| { assert q == path; }
  }

  ghost predicate HasParent(rows: seq<Row>, shown: seq<Shown>, p: nat) {
    exists q: nat :: ParentLine(rows, shown, q, p)
  }

  /** Every line deeper than `depth` has its parent among these lines. */
  ghost predicate Nested(rows: seq<Row>, shown: seq<Shown>, depth: nat) {
    forall p {:trigger HasParent(rows, shown, p)} ::
      0 <= p < |shown| && depth < shown[p].depth ==> HasParent(rows, shown, p)
  }

  /** Lines that are all under the row at `i`, which is at `depth`. */
  ghost predicate AllUnder(rows: seq<Row>, shown: seq<Shown>, i: nat, depth: nat)
    requires i < |rows|
  {
    forall p :: 0 <= p < |shown| ==>
      depth < shown[p].depth && shown[p].row < |rows|
        && (shown[p].depth == depth + 1 ==> ParentOf(rows, shown[p].row) == rows[i].id)
  }

  lemma ShiftParentLine(rows: seq<Row>, part: seq<Shown>, p: nat, all: seq<Shown>, d: nat)
    requires p < |part| && HasParent(rows, part, p) && d + |part| <= |all| && forall k ::
      0 <= k < |part| ==> all[d + k] == part[k]
    ensures HasParent(rows, all, p + d)
  {
    var q: nat :| ParentLine(rows, part, q, p);
    assert all[d + p] == part[p] && all[d + q] == part[q];
    forall m: nat | q + d < m < p + d ensures all[p + d].depth <= all[m].depth {
      assert all[d + (m - d)] == part[m - d];
    }
    assert ParentLine(rows, all, q + d, p + d);
  }

  lemma FirstIsParent(rows: seq<Row>, i: nat, depth: nat, under: seq<Shown>, all: seq<Shown>, p: nat)
    requires i < |rows| && AllUnder(rows, under, i, depth) && p < |under| && under[p].depth == depth + 1
    requires 1 + |under| <= |all| && all[0] == Shown(i, depth) && forall k ::
      0 <= k < |under| ==> all[1 + k] == under[k]
    ensures HasParent(rows, all, p + 1)
  {
    assert all[1 + p] == under[p];
    forall m: nat | 0 < m < p + 1 ensures all[p + 1].depth <= all[m].depth { assert all[1 + (m - 1)] == under[m - 1]; }
    assert ParentLine(rows, all, 0, p + 1);
  }

  lemma JoinedAt(rows: seq<Row>, i: nat, depth: nat, under: seq<Shown>, rest: seq<Shown>, all: seq<Shown>, p: nat)
    requires i < |rows| && AllUnder(rows, under, i, depth) && Nested(rows, under, depth + 1)
    requires Nested(rows, rest, depth)
    requires |all| == 1 + |under| + |rest| && all[0] == Shown(i, depth)
    requires forall k :: 0 <= k < |under| ==> all[1 + k] == under[k]
    requires forall k :: 0 <= k < |rest| ==> all[1 + |under| + k] == rest[k]
    requires p < |all| && depth < all[p].depth
    ensures HasParent(rows, all, p)
  {
    if p <= |under| {
      assert all[1 + (p - 1)] == under[p - 1];
      if under[p - 1].depth == depth + 1 {
        FirstIsParent(rows, i, depth, under, all, p - 1);
      } else {
        assert HasParent(rows, under, p - 1);
        ShiftParentLine(rows, under, p - 1, all, 1);
      }
    } else {
      var d := 1 + |under|;
      assert all[d + (p - d)] == rest[p - d];
      assert HasParent(rows, rest, p - d);
      ShiftParentLine(rows, rest, p - d, all, d);
    }
  }

  /** A row, the lines under it and the lines after them. */
  lemma JoinedIsNested(rows: seq<Row>, i: nat, depth: nat, under: seq<Shown>, rest: seq<Shown>)
    requires i < |rows| && AllUnder(rows, under, i, depth) && Nested(rows, under, depth + 1)
    requires Nested(rows, rest, depth)
    ensures Nested(rows, [Shown(i, depth)] + under + rest, depth)
  {
    var all := [Shown(i, depth)] + under + rest;
    forall p | 0 <= p < |all| && depth < all[p].depth ensures HasParent(rows, all, p) {
      JoinedAt(rows, i, depth, under, rest, all, p);
    }
  }

  lemma VisitIsUnder(rows: seq<Row>, path: seq<nat>, i: nat)
    requires OwnIds(rows) && Path(rows, path + [i]) && i < |rows|
    ensures AllUnder(rows, Visit(rows, path + [i], 0), i, |path|)
  {
    var under := Visit(rows, path + [i], 0);
    forall p | 0 <= p < |under|
      ensures |path| < under[p].depth && under[p].row < |rows|
      ensures (under[p].depth == |path| + 1 ==> ParentOf(rows, under[p].row) == rows[i].id)
    {
      LinesAreDeep(rows, path + [i], 0, under[p]);
    }
  }

  lemma {:induction false} VisitIsNested(rows: seq<Row>, path: seq<nat>, i: nat)
    requires OwnIds(rows) && Path(rows, path) && i <= |rows|
    ensures Nested(rows, Visit(rows, path, i), |path|)
    decreases if |path| <= |rows| then |rows| - |path| else 0, |rows| - i
  {
    if i < |rows| {
      VisitIsNested(rows, path, i + 1);
      if ParentOf(rows, i) == Last(rows, path) {
        PathGrows(rows, path, i);
        VisitIsNested(rows, path + [i], 0);
        VisitIsUnder(rows, path, i);
        JoinedIsNested(rows, i, |path|, Visit(rows, path + [i], 0), Visit(rows, path, i + 1));
      }
    }
  }

  /**
   * Every line below the top comes after its parent, with only lines under that between: the list is a pre-order
   * walk.
   */
  lemma InReadingOrder(rows: seq<Row>, p: nat)
    requires OwnIds(rows) && p < |Visit(rows, [], 0)| && Visit(rows, [], 0)[p].depth > 0
    ensures HasParent(rows, Visit(rows, [], 0), p)
  {
    VisitIsNested(rows, [], 0);
  }

  /** The chain of parents of a row comes to an end. */
  ghost predicate HasChain(rows: seq<Row>, k: nat) { exists depth :: ReachesTop(rows, k, depth) }

  /** The row at `k` is shown. */
  ghost predicate Shows(shown: seq<Shown>, k: nat) { exists p :: 0 <= p < |shown| && shown[p].row == k }

  lemma ChainIsShown(rows: seq<Row>, k: nat)
    requires OwnIds(rows) && HasChain(rows, k)
    ensures Shows(Visit(rows, [], 0), k)
  {
    var depth :| ReachesTop(rows, k, depth);
    ShownExactly(rows, k, depth);
    var shown := Visit(rows, [], 0);
    var p :| 0 <= p < |shown| && shown[p] == Shown(k, depth);
  }

  ghost function RowsOf(shown: seq<Shown>): (places: seq<nat>)
    ensures |places| == |shown| && forall p :: 0 <= p < |shown| ==> places[p] == shown[p].row
  {
    seq(|shown|, p requires 0 <= p < |shown| => shown[p].row)
  }

  lemma EachOnce(shown: seq<Shown>, count: nat)
    requires NoneTwice(shown) && (forall p :: 0 <= p < |shown| ==> shown[p].row < count) && forall k: nat ::
      k < count ==> Shows(shown, k)
    ensures |shown| == count
  {
    var places := RowsOf(shown);
    SizeOfPlaces(places, |places|);
    var all := Places(places, |places|);
    forall k: nat ensures k in all <==> k < count {
      if k < count {
        assert Shows(shown, k);
        var p :| 0 <= p < |shown| && shown[p].row == k;
        assert places[p] in all;
      }
    }
    assert all == UpTo(count);
  }

  /** When every chain of parents reaches the top, the list shows every row, each once. */
  lemma AllShownOnce(rows: seq<Row>)
    requires OwnIds(rows) && forall k: nat :: k < |rows| ==> HasChain(rows, k)
    ensures |Visit(rows, [], 0)| == |rows| && NoneTwice(Visit(rows, [], 0))
    ensures forall k: nat :: k < |rows| ==> Shows(Visit(rows, [], 0), k)
  {
    var shown := Visit(rows, [], 0);
    NoRowTwice(rows);
    forall k: nat | k < |rows| ensures Shows(shown, k) { ChainIsShown(rows, k); }
    forall p | 0 <= p < |shown| ensures shown[p].row < |rows| { LinesAreDeep(rows, [], 0, shown[p]); }
    EachOnce(shown, |rows|);
  }

  // ----- siblings -----

  /** Rows with the same parent are shown in the order of the plan. */
  ghost predicate InOrder(rows: seq<Row>, shown: seq<Shown>) {
    forall m, n :: 0 <= m < n < |shown| ==> Ordered(rows, shown[m], shown[n])
  }

  predicate Ordered(rows: seq<Row>, a: Shown, b: Shown) {
    AreSiblings(rows, a, b) ==> a.row < b.row
  }

  predicate AreSiblings(rows: seq<Row>, a: Shown, b: Shown) {
    a.row < |rows| && b.row < |rows| && ParentOf(rows, a.row) == ParentOf(rows, b.row) && a.depth == b.depth
  }

  /** A row comes before its siblings after it, and what is under it has no siblings there. */
  lemma PartsAreOrdered(rows: seq<Row>, path: seq<nat>, i: nat, a: Shown, b: Shown)
    requires OwnIds(rows) && Path(rows, path) && i < |rows| && ParentOf(rows, i) == Last(rows, path)
    requires Path(rows, path + [i])
    requires (a == Shown(i, |path|) && b in Visit(rows, path + [i], 0) + Visit(rows, path, i + 1))
      || (a in Visit(rows, path + [i], 0) && b in Visit(rows, path, i + 1))
    ensures Ordered(rows, a, b)
  {
    if AreSiblings(rows, a, b) {
      if b in Visit(rows, path, i + 1) {
        var q := ShownHasPath(rows, path, i + 1, b);
        if a in Visit(rows, path + [i], 0) {
          var p := ShownHasPath(rows, path + [i], 0, a);
          assert (p + [a.row])[|path|] == (path + [i])[|path|];
          OnePath(rows, p, q);
        } else {
          OnePath(rows, path, q);
        }
      } else {
        var q := ShownHasPath(rows, path + [i], 0, b);
      }
    }
  }

  lemma JoinedIsInOrder(rows: seq<Row>, first: Shown, under: seq<Shown>, rest: seq<Shown>)
    requires InOrder(rows, under) && InOrder(rows, rest)
    requires forall b :: b in under + rest ==> Ordered(rows, first, b)
    requires forall a, b :: a in under && b in rest ==> Ordered(rows, a, b)
    ensures InOrder(rows, [first] + under + rest)
  {
    var all := [first] + under + rest;
    forall m, n | 0 <= m < n < |all| ensures Ordered(rows, all[m], all[n]) {
      if m == 0 {
        assert all[n] == (under + rest)[n - 1];
      } else if m < 1 + |under| <= n {
        assert all[m] == under[m - 1] && all[n] == rest[n - 1 - |under|];
      }
    }
  }

  lemma {:induction false} VisitIsInOrder(rows: seq<Row>, path: seq<nat>, i: nat)
    requires OwnIds(rows) && Path(rows, path) && i <= |rows|
    ensures InOrder(rows, Visit(rows, path, i))
    decreases if |path| <= |rows| then |rows| - |path| else 0, |rows| - i
  {
    if i < |rows| {
      VisitIsInOrder(rows, path, i + 1);
      if ParentOf(rows, i) == Last(rows, path) {
        PathGrows(rows, path, i);
        VisitIsInOrder(rows, path + [i], 0);
        var under, rest := Visit(rows, path + [i], 0), Visit(rows, path, i + 1);
        forall b: Shown | b in under + rest ensures Ordered(rows, Shown(i, |path|), b) {
          PartsAreOrdered(rows, path, i, Shown(i, |path|), b);
        }
        forall a: Shown, b: Shown | a in under && b in rest ensures Ordered(rows, a, b) {
          PartsAreOrdered(rows, path, i, a, b);
        }
        JoinedIsInOrder(rows, Shown(i, |path|), under, rest);
      }
    }
  }

  /** Rows with the same parent are shown in the order of the plan. */
  lemma SiblingsInOrder(rows: seq<Row>)
    requires OwnIds(rows)
    ensures InOrder(rows, Visit(rows, [], 0))
  {
    VisitIsInOrder(rows, [], 0);
  }

  // ----- when the walk ends, whatever the ids are -----

  /** How deep the walk from a parent goes, given that it may go `steps` deep; none when it would go deeper. */
  function Walk(rows: seq<Row>, parent: int, i: nat, steps: nat): Option<nat>
    requires i <= |rows|
    decreases steps, |rows| - i
  {
    if i == |rows| then Some(0)
    else if ParentOf(rows, i) != parent then Walk(rows, parent, i + 1, steps)
    else if steps == 0 then None
    else
      var under, rest := Walk(rows, rows[i].id, 0, steps - 1), Walk(rows, parent, i + 1, steps);
      if under.None? || rest.None? then None else if under.value + 1 < rest.value then rest else Some(under.value + 1)
  }

  /**
   * The id that the row at `n` of a path from a parent is shown under; at its end, that its children are shown under.
   */
  function IdAt(rows: seq<Row>, parent: int, path: seq<nat>, n: nat): int {
    if 0 < n <= |path| && path[n - 1] < |rows| then rows[path[n - 1]].id else parent
  }

  ghost predicate Link(rows: seq<Row>, parent: int, path: seq<nat>, n: nat) {
    n < |path| && path[n] < |rows| && ParentOf(rows, path[n]) == IdAt(rows, parent, path, n)
  }

  /** Rows from a parent down, each shown under the one before. */
  ghost predicate PathFrom(rows: seq<Row>, parent: int, path: seq<nat>) {
    forall n: nat {:trigger Link(rows, parent, path, n)} :: n < |path| ==> Link(rows, parent, path, n)
  }

  /** A path from the top that comes to an id again, or to 0, which stands for the top. */
  ghost predicate Circle(rows: seq<Row>, path: seq<nat>, m: nat, n: nat) {
    m < n <= |path| && PathFrom(rows, 0, path) && IdAt(rows, 0, path, m) == IdAt(rows, 0, path, n)
  }

  ghost predicate HasCircle(rows: seq<Row>) { exists path, m: nat, n: nat :: Circle(rows, path, m, n) }

  ghost predicate Ends(rows: seq<Row>) { exists steps: nat :: Walk(rows, 0, 0, steps).Some? }

  /** A walk that meets a child whose own walk would go too deep would go too deep. */
  lemma {:induction false} WalkMeets(rows: seq<Row>, parent: int, k: nat, i: nat, steps: nat)
    requires i <= k < |rows| && ParentOf(rows, k) == parent
    requires (steps > 0 ==> Walk(rows, rows[k].id, 0, steps - 1).None?)
    ensures Walk(rows, parent, i, steps).None?
    decreases k - i
  {
    if i < k { WalkMeets(rows, parent, k, i + 1, steps); }
  }

  /** A walk goes as deep as any path. */
  lemma {:induction false} WalkIsDeep(rows: seq<Row>, parent: int, path: seq<nat>, steps: nat)
    requires PathFrom(rows, parent, path) && |path| > steps
    ensures Walk(rows, parent, 0, steps).None?
    decreases steps
  {
    assert Link(rows, parent, path, 0);
    var k := path[0];
    if steps > 0 {
      TailOfPath(rows, parent, path);
      WalkIsDeep(rows, rows[k].id, path[1..], steps - 1);
    }
    WalkMeets(rows, parent, k, 0, steps);
  }

  lemma TailOfPath(rows: seq<Row>, parent: int, path: seq<nat>)
    requires PathFrom(rows, parent, path) && path != [] && path[0] < |rows|
    ensures PathFrom(rows, rows[path[0]].id, path[1..])
  {
    var rest := path[1..];
    forall n: nat | n < |rest| ensures Link(rows, rows[path[0]].id, rest, n) {
      assert Link(rows, parent, path, n + 1) && Link(rows, parent, path, n);
    }
  }

  /** A walk that would go too deep has a path that is too long. */
  lemma {:induction false} DeepPath(rows: seq<Row>, parent: int, i: nat, steps: nat) returns (path: seq<nat>)
    requires i <= |rows| && Walk(rows, parent, i, steps).None?
    ensures PathFrom(rows, parent, path) && |path| == steps + 1
    decreases steps, |rows| - i
  {
    if ParentOf(rows, i) != parent {
      path := DeepPath(rows, parent, i + 1, steps);
    } else if steps == 0 {
      path := [i];
    } else if Walk(rows, rows[i].id, 0, steps - 1).None? {
      var rest := DeepPath(rows, rows[i].id, 0, steps - 1);
      path := [i] + rest;
      LongerPath(rows, parent, i, rest);
    } else {
      path := DeepPath(rows, parent, i + 1, steps);
    }
  }

  lemma LongerPath(rows: seq<Row>, parent: int, i: nat, rest: seq<nat>)
    requires i < |rows| && ParentOf(rows, i) == parent && PathFrom(rows, rows[i].id, rest)
    ensures PathFrom(rows, parent, [i] + rest)
  {
    var path := [i] + rest;
    forall n: nat | n < |path| ensures Link(rows, parent, path, n) {
      if n > 0 { assert Link(rows, rows[i].id, rest, n - 1); }
      if n > 1 { assert Link(rows, rows[i].id, rest, n - 2); }
    }
  }

  lemma PartOfPath(rows: seq<Row>, path: seq<nat>, m: nat, n: nat)
    requires PathFrom(rows, 0, path) && m <= n <= |path|
    ensures PathFrom(rows, IdAt(rows, 0, path, m), path[m..n])
  {
    var part := path[m..n];
    forall k: nat | k < |part| ensures Link(rows, IdAt(rows, 0, path, m), part, k) {
      assert Link(rows, 0, path, m + k);
      if m + k > 0 { assert Link(rows, 0, path, m + k - 1); }
    }
  }

  lemma JoinedPaths(rows: seq<Row>, path: seq<nat>, part: seq<nat>)
    requires PathFrom(rows, 0, path) && PathFrom(rows, IdAt(rows, 0, path, |path|), part) && part != []
    ensures PathFrom(rows, 0, path + part)
    ensures IdAt(rows, 0, path + part, |path + part|) == IdAt(rows, IdAt(rows, 0, path, |path|), part, |part|)
  {
    var all, end := path + part, IdAt(rows, 0, path, |path|);
    assert Link(rows, end, part, |part| - 1);
    forall k: nat | k < |all| ensures Link(rows, 0, all, k) {
      if k < |path| {
        assert Link(rows, 0, path, k);
        if k > 0 { assert Link(rows, 0, path, k - 1); }
      } else {
        assert Link(rows, end, part, k - |path|);
        if k > |path| {
          assert Link(rows, end, part, k - |path| - 1);
        } else if k > 0 {
          assert Link(rows, 0, path, k - 1);
        }
      }
    }
  }

  /** Going around a circle as often as it takes. */
  lemma {:induction false} Around(rows: seq<Row>, path: seq<nat>, m: nat, n: nat, steps: nat) returns (longer: seq<nat>)
    requires Circle(rows, path, m, n)
    ensures PathFrom(rows, 0, longer) && |longer| >= steps && IdAt(rows, 0, longer, |longer|) == IdAt(rows, 0, path, n)
    decreases steps
  {
    if steps == 0 {
      PartOfPath(rows, path, 0, n);
      longer := path[0..n];
      assert Link(rows, 0, path, n - 1);
    } else {
      var before := Around(rows, path, m, n, steps - 1);
      PartOfPath(rows, path, m, n);
      JoinedPaths(rows, before, path[m..n]);
      longer := before + path[m..n];
      assert Link(rows, 0, path, n - 1);
    }
  }

  /** For all rows, whatever their ids: the walk ends if and only if no path from the top comes around in a circle. */
  lemma EndsWithoutCircles(rows: seq<Row>)
    ensures Ends(rows) <==> !HasCircle(rows)
  {
    if HasCircle(rows) {
      var path, m: nat, n: nat :| Circle(rows, path, m, n);
      forall steps: nat ensures Walk(rows, 0, 0, steps).None? {
        var longer := Around(rows, path, m, n, steps + 1);
        WalkIsDeep(rows, 0, longer, steps);
      }
    } else if Walk(rows, 0, 0, |rows|).None? {
      var path := DeepPath(rows, 0, 0, |rows|);
      forall k | 0 <= k < |path| ensures path[k] < |rows| { assert Link(rows, 0, path, k); }
      var m, n := Repeats(path, |rows|);
      assert Circle(rows, path, m + 1, n + 1);
    }
  }

  /** Among more places than rows one comes twice. */
  lemma Repeats(path: seq<nat>, count: nat) returns (m: nat, n: nat)
    requires |path| > count && forall k :: 0 <= k < |path| ==> path[k] < count
    ensures m < n < |path| && path[m] == path[n]
  {
    if forall j, k :: 0 <= j < k < |path| ==> path[j] != path[k] { DistinctAreFew(path, count); }
    m, n :| 0 <= m < n < |path| && path[m] == path[n];
  }

  /** Ids that are the rows' own and not 0 make no circle. */
  lemma OwnIdsEnd(rows: seq<Row>)
    requires OwnIds(rows)
    ensures Ends(rows)
  {
    EndsWithoutCircles(rows);
    if HasCircle(rows) {
      var path, m: nat, n: nat :| Circle(rows, path, m, n);
      NoCircleWithOwnIds(rows, path, m, n);
    }
  }

  lemma CircleBefore(rows: seq<Row>, path: seq<nat>, m: nat, n: nat)
    requires OwnIds(rows) && Circle(rows, path, m, n)
    ensures m > 0 && Circle(rows, path, m - 1, n - 1)
  {
    assert Link(rows, 0, path, n - 1);
    if n > 1 { assert Link(rows, 0, path, n - 2); }
    if m > 1 { assert Link(rows, 0, path, m - 2); }
    if m > 0 {
      assert Link(rows, 0, path, m - 1);
      assert path[m - 1] == path[n - 1];
    }
  }

  lemma {:induction false} NoCircleWithOwnIds(rows: seq<Row>, path: seq<nat>, m: nat, n: nat)
    requires OwnIds(rows)
    ensures !Circle(rows, path, m, n)
    decreases m
  {
    if Circle(rows, path, m, n) {
      CircleBefore(rows, path, m, n);
      NoCircleWithOwnIds(rows, path, m - 1, n - 1);
    }
  }

  /** With an id of 0 at the top the walk never ends: a row is then shown under itself. */
  lemma ZeroIdNeverEnds(rows: seq<Row>, k: nat, steps: nat)
    requires k < |rows| && rows[k].id == 0 && ParentOf(rows, k) == 0
    ensures Walk(rows, 0, 0, steps).None?
  {
    assert Circle(rows, [k], 0, 1);
    EndsWithoutCircles(rows);
  }
}

/** The open tabs. */
module Documents {
  import opened Text

  datatype Kind =
    | Query | Data | Structure | Activity | Roles | Function | Procedure | Sequence | TypeOf | Index | Trigger
    | CreateTable | Diagram | Assistant

  datatype FilterRequest = FilterRequest(id: nat, filters: seq<string>)

  /** A tab; `id` is the number in the source's `d1`, `d2`, … */
  datatype Document = Document(
    id: nat, kind: Kind, title: string, schema: Option<string>, name: Option<string>, detail: Option<string>,
    savedId: Option<string>, icon: Option<string>, sql: Option<string>, filterRequest: Option<FilterRequest>)

  datatype State = State(items: seq<Document>, active: Option<nat>, nextQuery: nat, nextId: nat)

  const EMPTY := State([], None, 1, 1)

  /** What is opened; the fields a kind has no use for are none. */
  datatype Target = Target(
    kind: Kind, schema: Option<string>, name: Option<string>, detail: Option<string>,
    savedId: Option<string>, title: Option<string>, sql: Option<string>, icon: Option<string>,
      filters: Option<seq<string>>)

  /** The words of the interface in the titles. */
  datatype Labels = Labels(query: nat -> string, newTable: string, activity: string, roles: string, assistant: string)

  function Or(text: Option<string>): string { if text.Some? then text.value else "" }

  predicate HasDetail(kind: Kind) { kind.Function? || kind.Procedure? }

  predicate OneOfAKind(kind: Kind) { kind.Activity? || kind.Roles? || kind.Assistant? }

  predicate SameIdentity(doc: Document, target: Target) {
    && doc.kind == target.kind
    && (OneOfAKind(target.kind)
        || (doc.schema == target.schema && (target.kind.Diagram? || SameTargetName(doc, target))))
  }

  predicate SameTargetName(doc: Document, target: Target) {
    doc.name == target.name && (HasDetail(target.kind) ==> Or(doc.detail) == Or(target.detail))
  }

  // ----- opening -----

  predicate IsSaved(doc: Document, id: string) { doc.kind.Query? && doc.savedId == Some(id) }

  predicate Wanted(doc: Document, t: Target) {
    if t.kind.Query? then t.savedId.Some? && t.savedId.value != "" && IsSaved(doc, t.savedId.value)
    else !t.kind.CreateTable? && SameIdentity(doc, t)
  }

  /** The first of the tabs from `i` on that shows what is opened, or their number. */
  function FindWanted(items: seq<Document>, t: Target, i: nat): (k: nat)
    requires i <= |items|
    ensures i <= k <= |items| && (k < |items| ==> Wanted(items[k], t))
    decreases |items| - i
  {
    if i == |items| || Wanted(items[i], t) then i else FindWanted(items, t, i + 1)
  }

  function TitleOf(labels: Labels, state: State, t: Target): string {
    match t.kind
    case Query => if t.title.Some? then t.title.value else labels.query(state.nextQuery)
    case CreateTable => labels.newTable
    case Diagram => Or(t.schema)
    case Activity => labels.activity
    case Roles => labels.roles
    case Assistant => labels.assistant
    case _ => Or(t.name)
  }

  method NewDocument(id: nat, title: string, t: Target) returns (doc: Document)
    ensures doc == Created(id, title, t)
  {
    doc := Document(id, t.kind, title, None, None, None, None, None, None, None);
    if t.kind.Query? {
      doc := doc.(sql := Some(Or(t.sql)));
      if t.savedId.Some? && t.savedId.value != "" { doc := doc.(savedId := t.savedId); }
    } else if t.kind.CreateTable? || t.kind.Diagram? {
      doc := doc.(schema := t.schema);
    } else if !OneOfAKind(t.kind) {
      doc := doc.(schema := t.schema, name := t.name);
      if HasDetail(t.kind) { doc := doc.(detail := Some(Or(t.detail))); }
      if t.kind.Data? {
        doc := doc.(icon := t.icon);
        if t.filters.Some? { doc := doc.(filterRequest := Some(FilterRequest(1, t.filters.value))); }
      }
    }
  }

  function Created(id: nat, title: string, t: Target): Document {
    var named := !t.kind.Query? && !t.kind.CreateTable? && !t.kind.Diagram? && !OneOfAKind(t.kind);
    Document(
      id, t.kind, title,
      if named || t.kind.CreateTable? || t.kind.Diagram? then t.schema else None,
      if named then t.name else None,
      if HasDetail(t.kind) then Some(Or(t.detail)) else None,
      if t.kind.Query? && t.savedId.Some? && t.savedId.value != "" then t.savedId else None,
      if t.kind.Data? then t.icon else None,
      if t.kind.Query? then Some(Or(t.sql)) else None,
      if t.kind.Data? && t.filters.Some? then Some(FilterRequest(1, t.filters.value)) else None)
  }

  function Refiltered(doc: Document, filters: seq<string>): Document {
    doc.(filterRequest := Some(FilterRequest((if doc.filterRequest.Some? then doc.filterRequest.value.id else 0) + 1,
      filters)))
  }

  /** The tab with this id gets new filters. */
  function Refilter(items: seq<Document>, id: nat, request: FilterRequest): seq<Document> {
    seq(|items|, k requires 0 <= k < |items| =>
      if items[k].id == id then items[k].(filterRequest := Some(request)) else items[k])
  }

  /** Opens a tab, or goes to the one that is open already. */
  function OpenDocument(labels: Labels, state: State, t: Target): State {
    var k := FindWanted(state.items, t, 0);
    if k < |state.items| then
      var existing := state.items[k];
      if t.kind.Data? && t.filters.Some?
      then state.(active := Some(existing.id),
        items := Refilter(state.items, existing.id, Refiltered(existing, t.filters.value).filterRequest.value))
      else state.(active := Some(existing.id))
    else
      State(state.items + [Created(state.nextId, TitleOf(labels, state, t), t)], Some(state.nextId),
        if t.kind.Query? && t.title.None? then state.nextQuery + 1 else state.nextQuery, state.nextId + 1)
  }

  predicate IsOpen(items: seq<Document>, id: nat) { exists k :: 0 <= k < |items| && items[k].id == id }

  function FocusDocument(state: State, id: nat): State {
    if IsOpen(state.items, id) then state.(active := Some(id)) else state
  }

  function SeedQuery(labels: Labels, state: State): State {
    if state.items != [] then state
    else OpenDocument(labels, state, Target(Query, None, None, None, None, None, Some("SELECT 1;"), None, None))
  }

  // ----- opening twice -----

  /** What can be open already: all but queries that are not saved and new tables. */
  predicate CanBeOpen(t: Target) {
    if t.kind.Query? then t.savedId.Some? && t.savedId.value != "" else !t.kind.CreateTable?
  }

  lemma {:induction false} FindsTheSame(items: seq<Document>, others: seq<Document>, t: Target, i: nat)
    requires i <= |items| <= |others| && forall k ::
      0 <= k < |items| ==> (Wanted(others[k], t) <==> Wanted(items[k], t))
    requires |items| < |others| ==> Wanted(others[|items|], t)
    ensures FindWanted(others, t, i) == FindWanted(items, t, i)
    decreases |items| - i
  {
    if i < |items| { FindsTheSame(items, others, t, i + 1); }
  }

  lemma CreatedIsWanted(id: nat, title: string, t: Target)
    requires CanBeOpen(t)
    ensures Wanted(Created(id, title, t), t)
  {}

  /** What has been opened is in front, and opening it again opens no other tab. */
  lemma OpenedTwice(labels: Labels, state: State, t: Target)
    requires CanBeOpen(t)
    ensures var s := OpenDocument(labels, state, t);
      && (exists k :: 0 <= k < |s.items| && s.active == Some(s.items[k].id) && Wanted(s.items[k], t))
      && |OpenDocument(labels, s, t).items| == |s.items| && OpenDocument(labels, s, t).active == s.active
  {
    var s := OpenDocument(labels, state, t);
    var k := FindWanted(state.items, t, 0);
    if k == |state.items| { CreatedIsWanted(state.nextId, TitleOf(labels, state, t), t); }
    assert s.active == Some(s.items[k].id) && Wanted(s.items[k], t);
    FindsTheSame(state.items, s.items, t, 0);
  }

  // ----- closing -----

  /** The first `n` tabs, without those that are dropped. */
  function Keep(items: seq<Document>, n: nat, drop: set<nat>): seq<Document>
    requires n <= |items|
  {
    if n == 0 then []
      else if items[n - 1].id in drop then Keep(items, n - 1, drop) else Keep(items, n - 1, drop) + [items[n - 1]]
  }

  /** The position of a tab, or the number of tabs. */
  function Position(items: seq<Document>, id: nat, i: nat): (k: nat)
    requires i <= |items|
    ensures i <= k <= |items| && (k < |items| ==> items[k].id == id)
    decreases |items| - i
  {
    if i == |items| || items[i].id == id then i else Position(items, id, i + 1)
  }

  /** The first tab from `i` on that stays. */
  function FirstKept(items: seq<Document>, i: nat, drop: set<nat>): Option<nat>
    requires i <= |items|
    decreases |items| - i
  {
    if i == |items| then None else if items[i].id !in drop then Some(items[i].id) else FirstKept(items, i + 1, drop)
  }

  /** The last of the first `n` tabs that stays. */
  function LastKept(items: seq<Document>, n: nat, drop: set<nat>): Option<nat>
    requires n <= |items|
  {
    if n == 0 then None else if items[n - 1].id !in drop then Some(items[n - 1].id) else LastKept(items, n - 1, drop)
  }

  /** The nearest tab that stays: the next one, else the one before. */
  function Neighbor(items: seq<Document>, id: nat, drop: set<nat>): Option<nat> {
    var at := Position(items, id, 0);
    if at == |items| then FirstKept(items, 0, drop)
    else if FirstKept(items, at + 1, drop).Some? then FirstKept(items, at + 1, drop)
    else LastKept(items, at, drop)
  }

  /** The tab in front once some are closed. */
  function Front(items: seq<Document>, active: Option<nat>, drop: set<nat>): Option<nat> {
    if active.None? || active.value !in drop then active else Neighbor(items, active.value, drop)
  }

  predicate AnyDropped(items: seq<Document>, drop: set<nat>) { exists k :: 0 <= k < |items| && items[k].id in drop }

  /** The state without some tabs. */
  function Closed(state: State, drop: set<nat>): State {
    if !AnyDropped(state.items, drop) then state
    else
      state.(items := Keep(state.items, |state.items|, drop), active := Front(state.items, state.active, drop))
  }

  method CloseDocuments(state: State, drop: set<nat>) returns (closed: State)
    ensures closed == Closed(state, drop)
  {
    var items := state.items;
    if !(exists k :: 0 <= k < |items| && items[k].id in drop) { return state; }
    var kept := Keep(items, |items|, drop);
    if state.active.None? || state.active.value !in drop { return state.(items := kept); }
    var at := Position(items, state.active.value, 0);
    var index: int := if at == |items| then -1 else at;
    var neighbor: Option<nat> := None;
    var i := index + 1;
    while i < |items| && neighbor.None?
      invariant 0 <= i <= |items|
      invariant FirstKept(items, index + 1, drop) == if neighbor.Some? then neighbor else FirstKept(items, i, drop)
      decreases |items| - i
    {
      if items[i].id !in drop { neighbor := Some(items[i].id); }
      i := i + 1;
    }
    if neighbor.None? {
      i := index - 1;
      while i >= 0 && neighbor.None?
        invariant -2 <= i < index
        invariant index < 0 ==> neighbor.None?
        invariant index >= 0 ==>
          i >= -1 && LastKept(items, index, drop) == if neighbor.Some? then neighbor else LastKept(items, i + 1, drop)
      {
        if items[i].id !in drop { neighbor := Some(items[i].id); }
        i := i - 1;
      }
    }
    closed := state.(items := kept, active := neighbor);
  }

  // ----- closing some tabs and then others -----

  lemma {:induction false} KeepIsPrefix(items: seq<Document>, i: nat, n: nat, drop: set<nat>)
    requires i <= n <= |items|
    ensures |Keep(items, i, drop)| <= |Keep(items, n, drop)|
    ensures i < n && items[i].id !in drop ==>
      |Keep(items, i, drop)| < |Keep(items, n, drop)| && Keep(items, n, drop)[|Keep(items, i, drop)|] == items[i]
    decreases n - i
  {
    if i < n { KeepIsPrefix(items, i, n - 1, drop); }
  }

  /** Where a tab is once others are closed. */
  function Rank(items: seq<Document>, i: nat, drop: set<nat>): nat
    requires i <= |items|
  {
    |Keep(items, i, drop)|
  }

  lemma {:induction false} FirstKeptTwice(items: seq<Document>, i: nat, a: set<nat>, b: set<nat>)
    requires i <= |items| && Rank(items, i, a) <= Rank(items, |items|, a)
    ensures FirstKept(Keep(items, |items|, a), Rank(items, i, a), b) == FirstKept(items, i, a + b)
    decreases |items| - i
  {
    if i < |items| {
      KeepIsPrefix(items, i, |items|, a);
      KeepIsPrefix(items, i + 1, |items|, a);
      FirstKeptTwice(items, i + 1, a, b);
    }
  }

  lemma {:induction false} LastKeptTwice(items: seq<Document>, i: nat, a: set<nat>, b: set<nat>)
    requires i <= |items| && Rank(items, i, a) <= Rank(items, |items|, a)
    ensures LastKept(Keep(items, |items|, a), Rank(items, i, a), b) == LastKept(items, i, a + b)
    decreases i
  {
    if i > 0 {
      KeepIsPrefix(items, i - 1, |items|, a);
      LastKeptTwice(items, i - 1, a, b);
    }
  }

  lemma {:induction false} PositionTwice(items: seq<Document>, id: nat, i: nat, a: set<nat>)
    requires i <= |items| && id !in a && Rank(items, i, a) <= Rank(items, |items|, a)
    ensures Position(Keep(items, |items|, a), id, Rank(items, i, a)) == Rank(items, Position(items, id, i), a)
    decreases |items| - i
  {
    if i < |items| {
      KeepIsPrefix(items, i, |items|, a);
      KeepIsPrefix(items, i + 1, |items|, a);
      if items[i].id != id { PositionTwice(items, id, i + 1, a); }
    }
  }

  lemma {:induction false} KeepTwice(items: seq<Document>, i: nat, a: set<nat>, b: set<nat>)
    requires i <= |items| && Rank(items, i, a) <= Rank(items, |items|, a)
    ensures Keep(Keep(items, |items|, a), Rank(items, i, a), b) == Keep(items, i, a + b)
    decreases i
  {
    if i > 0 {
      KeepIsPrefix(items, i - 1, |items|, a);
      KeepTwice(items, i - 1, a, b);
    }
  }

  ghost predicate OwnIds(items: seq<Document>) { forall j, k :: 0 <= j < k < |items| ==> items[j].id != items[k].id }

  /** Every tab from `i` up to `j` is dropped. */
  ghost predicate Gone(items: seq<Document>, i: nat, j: nat, drop: set<nat>) {
    j <= |items| && forall k :: i <= k < j ==> items[k].id in drop
  }

  lemma {:induction false} FirstSkips(items: seq<Document>, i: nat, j: nat, drop: set<nat>)
    requires i <= j <= |items| && Gone(items, i, j, drop)
    ensures FirstKept(items, i, drop) == FirstKept(items, j, drop)
    decreases j - i
  {
    if i < j { FirstSkips(items, i + 1, j, drop); }
  }

  lemma {:induction false} LastSkips(items: seq<Document>, i: nat, j: nat, drop: set<nat>)
    requires i <= j <= |items| && Gone(items, i, j, drop)
    ensures LastKept(items, i, drop) == LastKept(items, j, drop)
    decreases j - i
  {
    if i < j { LastSkips(items, i, j - 1, drop); }
  }

  lemma {:induction false} FirstFound(items: seq<Document>, i: nat, drop: set<nat>) returns (q: nat)
    requires i <= |items|
    ensures i <= q <= |items| && Gone(items, i, q, drop)
    ensures FirstKept(items, i, drop) == if q < |items| then Some(items[q].id) else None
    ensures q < |items| ==> items[q].id !in drop
    decreases |items| - i
  {
    q := i;
    if i < |items| && items[i].id in drop { q := FirstFound(items, i + 1, drop); }
  }

  /** One past the last tab that stays, or 0. */
  lemma {:induction false} LastFound(items: seq<Document>, n: nat, drop: set<nat>) returns (q: nat)
    requires n <= |items|
    ensures q <= n && Gone(items, q, n, drop)
    ensures LastKept(items, n, drop) == if q > 0 then Some(items[q - 1].id) else None
    ensures q > 0 ==> items[q - 1].id !in drop
  {
    q := n;
    if n > 0 && items[n - 1].id in drop { q := LastFound(items, n - 1, drop); }
  }

  lemma {:induction false} PositionIs(items: seq<Document>, q: nat, i: nat)
    requires OwnIds(items) && i <= q < |items|
    ensures Position(items, items[q].id, i) == q
    decreases q - i
  {
    if i < q { PositionIs(items, q, i + 1); }
  }

  /** The neighbor, once some tabs are closed, of one that stays. */
  lemma {:induction false} NeighborOfKept(items: seq<Document>, q: nat, a: set<nat>, b: set<nat>)
    requires OwnIds(items) && q < |items| && items[q].id !in a
    ensures Neighbor(Keep(items, |items|, a), items[q].id, b) ==
      if FirstKept(items, q + 1, a + b).Some? then FirstKept(items, q + 1, a + b) else LastKept(items, q, a + b)
  {
    RankOfKept(items, q, a);
    KeptTwice(items, q, a, b);
  }

  lemma RankOfKept(items: seq<Document>, q: nat, a: set<nat>)
    requires OwnIds(items) && q < |items| && items[q].id !in a
    ensures Position(Keep(items, |items|, a), items[q].id, 0) == Rank(items, q, a) < Rank(items, |items|, a)
  {
    KeepIsPrefix(items, q, |items|, a);
    PositionIs(items, q, 0);
    PositionTwice(items, items[q].id, 0, a);
  }

  lemma KeptTwice(items: seq<Document>, q: nat, a: set<nat>, b: set<nat>)
    requires q < |items| && items[q].id !in a
    ensures Rank(items, q, a) < Rank(items, |items|, a)
    ensures FirstKept(Keep(items, |items|, a), Rank(items, q, a) + 1, b) == FirstKept(items, q + 1, a + b)
    ensures LastKept(Keep(items, |items|, a), Rank(items, q, a), b) == LastKept(items, q, a + b)
  {
    KeepIsPrefix(items, q, |items|, a);
    KeepIsPrefix(items, q + 1, |items|, a);
    FirstKeptTwice(items, q + 1, a, b);
    LastKeptTwice(items, q, a, b);
  }

  /** Where the front tab goes when some tabs are closed and then others: the next one has stayed at first … */
  lemma {:induction false} NextTwice(items: seq<Document>, p: nat, q: nat, a: set<nat>, b: set<nat>)
    requires OwnIds(items) && p < q < |items| && Gone(items, p, q, a) && items[q].id !in a
    ensures Neighbor(items, items[p].id, a) == Some(items[q].id)
    ensures Neighbor(items, items[p].id, a + b) ==
      if items[q].id !in b then Some(items[q].id) else Neighbor(Keep(items, |items|, a), items[q].id, b)
  {
    PositionIs(items, p, 0);
    FirstSkips(items, p + 1, q, a);
    FirstSkips(items, p + 1, q, a + b);
    if items[q].id in b {
      NeighborOfKept(items, q, a, b);
      FirstSkips(items, p + 1, q + 1, a + b);
      LastSkips(items, p, q, a + b);
    }
  }

  /** … or none to the right has, and the one before. */
  lemma {:induction false} BeforeTwice(items: seq<Document>, p: nat, r: nat, a: set<nat>, b: set<nat>)
    requires OwnIds(items) && r < p < |items| && Gone(items, r + 1, |items|, a) && items[r].id !in a
    ensures Neighbor(items, items[p].id, a) == Some(items[r].id)
    ensures Neighbor(items, items[p].id, a + b) ==
      if items[r].id !in b then Some(items[r].id) else Neighbor(Keep(items, |items|, a), items[r].id, b)
  {
    PositionIs(items, p, 0);
    FirstSkips(items, p + 1, |items|, a);
    FirstSkips(items, p + 1, |items|, a + b);
    LastSkips(items, r + 1, p, a);
    LastSkips(items, r + 1, p, a + b);
    if items[r].id in b {
      NeighborOfKept(items, r, a, b);
      FirstSkips(items, r + 1, |items|, a + b);
      LastSkips(items, r, p, a + b);
    }
  }

  lemma {:induction false} NeighborTwice(items: seq<Document>, p: nat, a: set<nat>, b: set<nat>)
    requires OwnIds(items) && p < |items| && items[p].id in a
    ensures var first := Neighbor(items, items[p].id, a);
      Neighbor(items, items[p].id, a + b) ==
        if first.None? then None
          else if first.value !in b then first else Neighbor(Keep(items, |items|, a), first.value, b)
  {
    var q := FirstFound(items, p + 1, a);
    var r := LastFound(items, p, a);
    if q < |items| {
      NextTwice(items, p, q, a, b);
    } else if r > 0 {
      BeforeTwice(items, p, r - 1, a, b);
    } else {
      PositionIs(items, p, 0);
      FirstSkips(items, p + 1, |items|, a + b);
      LastSkips(items, 0, p, a + b);
    }
  }

  // ----- every state that can be reached -----

  /**
   * Ids are the tabs' own and below the next one; the front tab is open, and there is none only when no tab is open.
   */
  ghost predicate Valid(state: State) {
    && OwnIds(state.items)
    && (forall k :: 0 <= k < |state.items| ==> state.items[k].id < state.nextId)
    && (state.active.None? <==> state.items == [])
    && (state.active.Some? ==> IsOpen(state.items, state.active.value))
  }

  /** Where a tab that stays comes from. */
  lemma {:induction false} KeptFrom(items: seq<Document>, n: nat, drop: set<nat>, k: nat) returns (j: nat)
    requires n <= |items| && k < |Keep(items, n, drop)|
    ensures j < n && items[j] == Keep(items, n, drop)[k] && items[j].id !in drop
  {
    if items[n - 1].id in drop || k < |Keep(items, n - 1, drop)| {
      j := KeptFrom(items, n - 1, drop, k);
    } else {
      j := n - 1;
    }
  }

  lemma {:induction false} KeepsOnly(items: seq<Document>, n: nat, drop: set<nat>)
    requires n <= |items| && OwnIds(items)
    ensures OwnIds(Keep(items, n, drop))
    ensures forall k :: 0 <= k < |Keep(items, n, drop)| ==> Keep(items, n, drop)[k] in items
  {
    if n > 0 {
      KeepsOnly(items, n - 1, drop);
      var kept := Keep(items, n - 1, drop);
      forall k | 0 <= k < |kept| ensures kept[k].id != items[n - 1].id {
        var j := KeptFrom(items, n - 1, drop, k);
      }
    }
  }

  lemma StaysOpen(items: seq<Document>, q: nat, drop: set<nat>)
    requires q < |items| && items[q].id !in drop
    ensures IsOpen(Keep(items, |items|, drop), items[q].id)
  {
    KeepIsPrefix(items, q, |items|, drop);
  }

  lemma {:induction false} NothingDropped(items: seq<Document>, n: nat, drop: set<nat>)
    requires n <= |items| && !AnyDropped(items, drop)
    ensures Keep(items, n, drop) == items[..n]
  {
    if n > 0 { NothingDropped(items, n - 1, drop); }
  }

  lemma CloseStaysValid(state: State, drop: set<nat>)
    requires Valid(state)
    ensures Valid(Closed(state, drop))
  {
    var items, kept := state.items, Keep(state.items, |state.items|, drop);
    KeepsOnly(items, |items|, drop);
    if AnyDropped(items, drop) {
      var id := state.active.value;
      var p :| 0 <= p < |items| && items[p].id == id;
      PositionIs(items, p, 0);
      if id in drop { NeighborIsOpen(items, p, drop); } else { StaysOpen(items, p, drop); }
    }
  }

  lemma NeighborIsOpen(items: seq<Document>, p: nat, drop: set<nat>)
    requires OwnIds(items) && p < |items| && items[p].id in drop
    ensures var next := Neighbor(items, items[p].id, drop);
      if next.Some? then IsOpen(Keep(items, |items|, drop), next.value) else Keep(items, |items|, drop) == []
  {
    PositionIs(items, p, 0);
    var q := FirstFound(items, p + 1, drop);
    var r := LastFound(items, p, drop);
    if q < |items| {
      StaysOpen(items, q, drop);
    } else if r > 0 {
      StaysOpen(items, r - 1, drop);
    } else {
      assert Gone(items, 0, |items|, drop);
      NoneKept(items, |items|, drop);
    }
  }

  lemma {:induction false} NoneKept(items: seq<Document>, n: nat, drop: set<nat>)
    requires n <= |items| && Gone(items, 0, n, drop)
    ensures Keep(items, n, drop) == []
  {
    if n > 0 { NoneKept(items, n - 1, drop); }
  }

  /** Closing some tabs and then others is closing them all, the front tab included. */
  lemma ClosedTwice(state: State, a: set<nat>, b: set<nat>)
    requires Valid(state)
    ensures Closed(Closed(state, a), b) == Closed(state, a + b)
  {
    var items := state.items;
    KeepTwice(items, |items|, a, b);
    CloseStaysValid(state, a);
    ClosedIs(state, a);
    ClosedIs(Closed(state, a), b);
    ClosedIs(state, a + b);
    if items != [] {
      var p :| 0 <= p < |items| && items[p].id == state.active.value;
      FrontTwice(items, p, a, b);
    }
  }

  lemma {:induction false} FrontTwice(items: seq<Document>, p: nat, a: set<nat>, b: set<nat>)
    requires OwnIds(items) && p < |items|
    ensures Front(Keep(items, |items|, a), Front(items, Some(items[p].id), a), b)
      == Front(items, Some(items[p].id), a + b)
  {
    PositionIs(items, p, 0);
    if items[p].id in a { NeighborTwice(items, p, a, b); } else { NeighborOfKept(items, p, a, b); }
  }

  /** Closing, without its shortcut for when nothing is closed. */
  lemma ClosedIs(state: State, drop: set<nat>)
    requires Valid(state)
    ensures Closed(state, drop) ==
      state.(items := Keep(state.items, |state.items|, drop), active := Front(state.items, state.active, drop))
  {
    if !AnyDropped(state.items, drop) {
      NothingDropped(state.items, |state.items|, drop);
      assert state.items[..|state.items|] == state.items;
    }
  }

  /**
   * The tab that comes to the front is the first to the right that stays; when none there does, the first to the
   * left.
   */
  lemma FrontIsNearest(state: State, drop: set<nat>, p: nat, q: nat)
    requires Valid(state) && p < |state.items| && state.active == Some(state.items[p].id) && state.items[p].id in drop
    requires q < |state.items| && state.items[q].id !in drop
    requires (p < q && Gone(state.items, p, q, drop)) || (q < p && Gone(state.items, q + 1, |state.items|, drop))
    ensures Closed(state, drop).active == Some(state.items[q].id)
  {
    var items := state.items;
    PositionIs(items, p, 0);
    if p < q {
      FirstSkips(items, p + 1, q, drop);
    } else {
      FirstSkips(items, p + 1, |items|, drop);
      LastSkips(items, q + 1, p, drop);
    }
  }

  // ----- closing one by one -----

  /** The tabs `ids[..n]` closed one after another. */
  function CloseEach(state: State, ids: seq<nat>, n: nat): State
    requires n <= |ids|
  {
    if n == 0 then state else Closed(CloseEach(state, ids, n - 1), {ids[n - 1]})
  }

  function IdsTo(ids: seq<nat>, n: nat): set<nat>
    requires n <= |ids|
  {
    if n == 0 then {} else IdsTo(ids, n - 1) + {ids[n - 1]}
  }

  /**
   * Closing tabs one after another, in any order, is closing them at once: the same tabs stay, and the same is in
   * front.
   */
  lemma {:induction false} OneByOneIsAtOnce(state: State, ids: seq<nat>, n: nat)
    requires Valid(state) && n <= |ids|
    ensures CloseEach(state, ids, n) == Closed(state, IdsTo(ids, n))
  {
    if n > 0 {
      OneByOneIsAtOnce(state, ids, n - 1);
      ClosedTwice(state, IdsTo(ids, n - 1), {ids[n - 1]});
    }
  }

  /** The ids of the first `n` tabs that match. */
  function Matching(items: seq<Document>, n: nat, drop: Document -> bool): seq<nat>
    requires n <= |items|
  {
    if n == 0 then []
      else if drop(items[n - 1]) then Matching(items, n - 1, drop) + [items[n - 1].id] else Matching(items, n - 1, drop)
  }

  /** Closes the tabs that match, one after another. */
  method Without(state: State, drop: Document -> bool) returns (next: State)
    ensures next == DroppedOneByOne(state, drop)
  {
    var removed := Matching(state.items, |state.items|, drop);
    next := state;
    for k := 0 to |removed|
      invariant next == CloseEach(state, removed, k)
    {
      next := CloseDocuments(next, {removed[k]});
    }
  }

  function DroppedOneByOne(state: State, drop: Document -> bool): State {
    var removed := Matching(state.items, |state.items|, drop);
    CloseEach(state, removed, |removed|)
  }

  /** The ids of the tabs that match. */
  ghost function MatchingSet(items: seq<Document>, drop: Document -> bool): set<nat> {
    set k | 0 <= k < |items| && drop(items[k]) :: items[k].id
  }

  lemma {:induction false} IdsOfLonger(ids: seq<nat>, id: nat, n: nat)
    requires n <= |ids|
    ensures IdsTo(ids + [id], n) == IdsTo(ids, n)
  {
    if n > 0 { IdsOfLonger(ids, id, n - 1); }
  }

  lemma {:induction false} MatchingIs(items: seq<Document>, n: nat, drop: Document -> bool)
    requires n <= |items|
    ensures var ids := Matching(items, n, drop);
      IdsTo(ids, |ids|) == (set k | 0 <= k < n && drop(items[k]) :: items[k].id)
  {
    if n > 0 {
      MatchingIs(items, n - 1, drop);
      IdsOfLonger(Matching(items, n - 1, drop), items[n - 1].id, |Matching(items, n - 1, drop)|);
    }
  }

  /** `without` is one batch closing of the tabs that match. */
  lemma WithoutIsOneClosing(state: State, drop: Document -> bool)
    requires Valid(state)
    ensures DroppedOneByOne(state, drop) == Closed(state, MatchingSet(state.items, drop))
  {
    var removed := Matching(state.items, |state.items|, drop);
    OneByOneIsAtOnce(state, removed, |removed|);
    MatchingIs(state.items, |state.items|, drop);
  }

  function DropRelation(state: State, schema: string, name: string): State {
    DroppedOneByOne(state, (doc: Document) => IsRelation(doc, schema, name))
  }

  predicate IsRelation(doc: Document, schema: string, name: string) {
    (doc.kind.Data? || doc.kind.Structure?) && doc.schema == Some(schema) && doc.name == Some(name)
  }

  function DropSchema(state: State, schema: string): State {
    DroppedOneByOne(state, (doc: Document) => doc.schema == Some(schema))
  }

  // ----- renaming -----

  function Each(items: seq<Document>, change: Document -> Document): (changed: seq<Document>)
    ensures |changed| == |items|
    ensures forall k :: 0 <= k < |items| ==> changed[k] == change(items[k])
  {
    seq(|items|, k requires 0 <= k < |items| => change(items[k]))
  }

  function Trim(s: string): string { TrimStart(TrimEnd(s)) }

  function SavedAs(doc: Document, id: nat, savedId: string, title: string): Document {
    if doc.id == id && doc.kind.Query? then doc.(savedId := Some(savedId), title := title) else doc
  }

  function Retitled(doc: Document, id: nat, title: string): Document {
    if doc.id == id && doc.kind.Query? then doc.(title := title) else doc
  }

  function Patched(labels: Labels, doc: Document, id: nat, title: Option<string>, schema: Option<string>): Document {
    if doc.id != id || !doc.kind.CreateTable? then doc
    else
      var named := if title.None? then doc
        else doc.(title := if Trim(title.value) != "" then Trim(title.value) else labels.newTable);
      if schema.Some? && Trim(schema.value) != "" then named.(schema := Some(Trim(schema.value))) else named
  }

  function RelationRenamed(doc: Document, schema: string, name: string, newName: string): Document {
    if IsRelation(doc, schema, name) then doc.(name := Some(newName), title := newName) else doc
  }

  function SchemaRenamed(doc: Document, schema: string, newName: string): Document {
    if doc.schema != Some(schema) then doc
    else if doc.kind.Diagram? then doc.(schema := Some(newName), title := newName) else doc.(schema := Some(newName))
  }

  function RenameQuery(state: State, id: nat, title: string): State {
    if Trim(title) == "" then state
      else state.(items := Each(state.items, (doc: Document) => Retitled(doc, id, Trim(title))))
  }

  function SetQuerySaved(state: State, id: nat, savedId: string, title: string): State {
    state.(items := Each(state.items, (doc: Document) => SavedAs(doc, id, savedId, title)))
  }

  function UpdateCreateTable(labels: Labels, state: State, id: nat, title: Option<string>,
      schema: Option<string>): State {
    state.(items := Each(state.items, (doc: Document) => Patched(labels, doc, id, title, schema)))
  }

  function RenameRelation(state: State, schema: string, name: string, newName: string): State {
    state.(items := Each(state.items, (doc: Document) => RelationRenamed(doc, schema, name, newName)))
  }

  function RenameSchema(state: State, schema: string, newName: string): State {
    state.(items := Each(state.items, (doc: Document) => SchemaRenamed(doc, schema, newName)))
  }
}

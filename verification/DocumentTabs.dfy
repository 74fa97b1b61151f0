/** What the tabs show. */
module DocumentTabs {
  import opened Text
  import opened Documents
  import opened DocumentRuns

  // ----- what is opened -----

  /** The tab is for what is opened: the same saved query, object, schema or the one tab of its kind. */
  predicate IsFor(doc: Document, t: Target) {
    doc.kind == t.kind &&
    match t.kind
    case Query => Or(t.savedId) != "" && doc.savedId == t.savedId
    case CreateTable => false
    case Activity => true
    case Roles => true
    case Assistant => true
    case Diagram => doc.schema == t.schema
    case Function => doc.schema == t.schema && doc.name == t.name && Or(doc.detail) == Or(t.detail)
    case Procedure => doc.schema == t.schema && doc.name == t.name && Or(doc.detail) == Or(t.detail)
    case _ => doc.schema == t.schema && doc.name == t.name
  }

  lemma WantedIsFor(doc: Document, t: Target)
    ensures Wanted(doc, t) <==> IsFor(doc, t)
  {}

  /** The filters a tab is asked to show. */
  function Filters(doc: Document): Option<seq<string>> {
    if doc.filterRequest.Some? then Some(doc.filterRequest.value.filters) else None
  }

  /** The same tab, but for a request to show other filters. */
  predicate SameTab(a: Document, b: Document) { a == b.(filterRequest := a.filterRequest) }

  /**
   * What is open already comes to the front as it is, asked for the filters that were given; anything else gets a tab
   * of its own at the end.
   */
  lemma OpensWhatIsAsked(labels: Labels, state: State, t: Target, k: nat)
    requires Valid(state)
    requires k <= |state.items| && forall j :: 0 <= j < k ==> !IsFor(state.items[j], t)
    requires k < |state.items| ==> IsFor(state.items[k], t)
    ensures var after := OpenDocument(labels, state, t);
      && after.active == Some(if k < |state.items| then state.items[k].id else state.nextId)
      && |after.items| == (if k < |state.items| then |state.items| else |state.items| + 1)
      && k < |after.items|
      && (forall j :: 0 <= j < |state.items| && j != k ==> after.items[j] == state.items[j])
      && (k < |state.items| ==>
        SameTab(after.items[k], state.items[k])
        && Filters(after.items[k]) == if t.kind.Data? && t.filters.Some? then t.filters else Filters(state.items[k]))
      && (k == |state.items| ==>
        after.items[k].id == state.nextId && after.items[k].kind == t.kind
        && (CanBeOpen(t) ==> IsFor(after.items[k], t))
        && Filters(after.items[k]) == if t.kind.Data? then t.filters else None)
  {
    WantedIs(state.items, t, 0, k);
    if k == |state.items| { WantedIsFor(OpenDocument(labels, state, t).items[k], t); }
  }

  lemma {:induction false} WantedIs(items: seq<Document>, t: Target, i: nat, k: nat)
    requires i <= k <= |items| && forall j :: i <= j < k ==> !IsFor(items[j], t)
    requires k < |items| ==> IsFor(items[k], t)
    ensures FindWanted(items, t, i) == k
    decreases k - i
  {
    if i < |items| { WantedIsFor(items[i], t); }
    if i < k { WantedIs(items, t, i + 1, k); }
  }

  // ----- titles -----

  /** The title names what the tab shows; that of a query or a new table is the person's own. */
  predicate NamesIt(labels: Labels, doc: Document) {
    match doc.kind
    case Query => true
    case CreateTable => true
    case Activity => doc.title == labels.activity
    case Roles => doc.title == labels.roles
    case Assistant => doc.title == labels.assistant
    case Diagram => doc.title == Or(doc.schema)
    case _ => doc.title == Or(doc.name)
  }

  ghost predicate AllNamed(labels: Labels, items: seq<Document>) {
    forall k :: 0 <= k < |items| ==> NamesIt(labels, items[k])
  }

  lemma DropKeepsNames(labels: Labels, state: State, drop: Document -> bool)
    requires Valid(state) && AllNamed(labels, state.items)
    ensures AllNamed(labels, DroppedOneByOne(state, drop).items)
  {
    WithoutIsOneClosing(state, drop);
    CloseKeepsNames(labels, state, MatchingSet(state.items, drop));
  }

  lemma CloseKeepsNames(labels: Labels, state: State, drop: set<nat>)
    requires Valid(state) && AllNamed(labels, state.items)
    ensures AllNamed(labels, Closed(state, drop).items)
  {
    ClosedIs(state, drop);
    KeepsOnly(state.items, |state.items|, drop);
  }

  lemma HappenKeepsNames(labels: Labels, state: State, e: Event)
    requires Valid(state) && AllNamed(labels, state.items)
    ensures AllNamed(labels, Happen(labels, state, e).items)
  {
    match e
    case Close(drop) => CloseKeepsNames(labels, state, drop);
    case DropTable(schema, name) => DropKeepsNames(labels, state, (doc: Document) => IsRelation(doc, schema, name));
    case DropNamespace(schema) => DropKeepsNames(labels, state, (doc: Document) => doc.schema == Some(schema));
    case _ =>
  }

  /** In every run, renames of tables and schemas included, the titles name what the tabs show. */
  lemma {:induction false} TitlesNameWhatIsShown(labels: Labels, r: Run)
    ensures AllNamed(labels, After(labels, r).items)
  {
    if r.Then? {
      EveryRunIsValid(labels, r.before);
      TitlesNameWhatIsShown(labels, r.before);
      HappenKeepsNames(labels, After(labels, r.before), r.event);
    }
  }

  // ----- what is dropped -----

  /** Exactly the tabs that do not match stay. */
  lemma OthersStay(state: State, drop: Document -> bool, doc: Document)
    requires Valid(state)
    ensures doc in DroppedOneByOne(state, drop).items <==> doc in state.items && !drop(doc)
  {
    var items, gone := state.items, MatchingSet(state.items, drop);
    WithoutIsOneClosing(state, drop);
    ClosedIs(state, gone);
    var kept := Keep(items, |items|, gone);
    if doc in kept {
      var k :| 0 <= k < |kept| && kept[k] == doc;
      var j := KeptFrom(items, |items|, gone, k);
    } else if doc in items && !drop(doc) {
      var j :| 0 <= j < |items| && items[j] == doc;
      assert doc.id !in gone;
      KeepIsPrefix(items, j, |items|, gone);
    }
  }

  /** A table that is gone takes its data and its structure along, and nothing else. */
  lemma DropsTheTable(state: State, schema: string, name: string, doc: Document)
    requires Valid(state)
    ensures doc in DropRelation(state, schema, name).items <==>
      doc in state.items
      && !((doc.kind == Data || doc.kind == Structure) && doc.schema == Some(schema) && doc.name == Some(name))
  {
    OthersStay(state, (d: Document) => IsRelation(d, schema, name), doc);
  }

  /** A schema that is gone takes everything of it along, and nothing else. */
  lemma DropsTheSchema(state: State, schema: string, doc: Document)
    requires Valid(state)
    ensures doc in DropSchema(state, schema).items <==> doc in state.items && doc.schema != Some(schema)
  {
    OthersStay(state, (d: Document) => d.schema == Some(schema), doc);
  }
}

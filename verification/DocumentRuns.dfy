/** What the tabs keep over every run of what is done to them. */
module DocumentRuns {
  import opened Text
  import opened Documents

  datatype Event =
    | Open(target: Target)
    | Focus(id: nat)
    | Close(drop: set<nat>)
    | Save(id: nat, savedId: string, title: string)
    | Patch(id: nat, newTitle: Option<string>, newSchema: Option<string>)
    | Retitle(id: nat, title: string)
    | RenameTable(schema: string, name: string, newName: string)
    | RenameNamespace(schema: string, newName: string)
    | DropTable(schema: string, name: string)
    | DropNamespace(schema: string)
    | Seed

  function Happen(labels: Labels, state: State, e: Event): State {
    match e
    case Open(t) => OpenDocument(labels, state, t)
    case Focus(id) => FocusDocument(state, id)
    case Close(drop) => Closed(state, drop)
    case Save(id, savedId, title) => SetQuerySaved(state, id, savedId, title)
    case Patch(id, title, schema) => UpdateCreateTable(labels, state, id, title, schema)
    case Retitle(id, title) => RenameQuery(state, id, title)
    case RenameTable(schema, name, newName) => RenameRelation(state, schema, name, newName)
    case RenameNamespace(schema, newName) => RenameSchema(state, schema, newName)
    case DropTable(schema, name) => DropRelation(state, schema, name)
    case DropNamespace(schema) => DropSchema(state, schema)
    case Seed => SeedQuery(labels, state)
  }

  // ----- ids and the front tab -----

  /** The same ids in the same places. */
  ghost predicate SameIds(items: seq<Document>, others: seq<Document>) {
    |others| == |items| && forall k :: 0 <= k < |items| ==> others[k].id == items[k].id
  }

  lemma SameIdsStayValid(state: State, after: State)
    requires Valid(state) && SameIds(state.items, after.items) && after.nextId == state.nextId
    requires after.active == state.active
    ensures Valid(after)
  {
    if state.active.Some? {
      var k :| 0 <= k < |state.items| && state.items[k].id == state.active.value;
      assert after.items[k].id == state.active.value;
    }
  }

  lemma OpenStaysValid(labels: Labels, state: State, t: Target)
    requires Valid(state)
    ensures Valid(OpenDocument(labels, state, t))
  {
    var after := OpenDocument(labels, state, t);
    var k := FindWanted(state.items, t, 0);
    if k < |state.items| {
      assert after.items[k].id == state.items[k].id;
    } else {
      assert after.items[|state.items|].id == state.nextId;
    }
  }

  lemma HappenStaysValid(labels: Labels, state: State, e: Event)
    requires Valid(state)
    ensures Valid(Happen(labels, state, e))
  {
    match e
    case Open(t) => OpenStaysValid(labels, state, t);
    case Focus(id) =>
    case Close(drop) => CloseStaysValid(state, drop);
    case Save(_, _, _) => SameIdsStayValid(state, Happen(labels, state, e));
    case Patch(_, _, _) => SameIdsStayValid(state, Happen(labels, state, e));
    case Retitle(_, _) => SameIdsStayValid(state, Happen(labels, state, e));
    case RenameTable(_, _, _) => SameIdsStayValid(state, Happen(labels, state, e));
    case RenameNamespace(_, _) => SameIdsStayValid(state, Happen(labels, state, e));
    case DropTable(schema, name) => WithoutStaysValid(state, (doc: Document) => IsRelation(doc, schema, name));
    case DropNamespace(schema) => WithoutStaysValid(state, (doc: Document) => doc.schema == Some(schema));
    case Seed => OpenStaysValid(labels, state,
      Target(Query, None, None, None, None, None, Some("SELECT 1;"), None, None));
  }

  lemma WithoutStaysValid(state: State, drop: Document -> bool)
    requires Valid(state)
    ensures Valid(DroppedOneByOne(state, drop))
  {
    WithoutIsOneClosing(state, drop);
    CloseStaysValid(state, MatchingSet(state.items, drop));
  }

  datatype Run = Begin | Then(before: Run, event: Event)

  function After(labels: Labels, r: Run): State {
    if r.Begin? then SeedQuery(labels, EMPTY) else Happen(labels, After(labels, r.before), r.event)
  }

  /** Over every run ids stay distinct and below the next one, and the front tab is open, or none when no tab is. */
  lemma {:induction false} EveryRunIsValid(labels: Labels, r: Run)
    ensures Valid(After(labels, r))
  {
    if r.Begin? {
      assert Valid(EMPTY);
      HappenStaysValid(labels, EMPTY, Seed);
    } else {
      EveryRunIsValid(labels, r.before);
      HappenStaysValid(labels, After(labels, r.before), r.event);
    }
  }

  // ----- one tab for each object -----

  /** Two tabs that show the same object. */
  predicate SameObject(a: Document, b: Document) {
    && a.kind == b.kind && !a.kind.Query? && !a.kind.CreateTable?
    && (OneOfAKind(a.kind) || (a.schema == b.schema && (a.kind.Diagram? || SameName(a, b))))
  }

  predicate SameName(a: Document, b: Document) {
    a.name == b.name && (HasDetail(a.kind) ==> Or(a.detail) == Or(b.detail))
  }

  ghost predicate OneTabEach(items: seq<Document>) {
    forall j, k :: 0 <= j < k < |items| ==> !SameObject(items[j], items[k])
  }

  lemma {:induction false} NoneWanted(items: seq<Document>, t: Target, i: nat, k: nat)
    requires i <= k < |items| && FindWanted(items, t, i) == |items|
    ensures !Wanted(items[k], t)
    decreases k - i
  {
    if i < k { NoneWanted(items, t, i + 1, k); }
  }

  lemma OpenKeepsOneTabEach(labels: Labels, state: State, t: Target)
    requires OneTabEach(state.items)
    ensures OneTabEach(OpenDocument(labels, state, t).items)
  {
    var items, after := state.items, OpenDocument(labels, state, t).items;
    if FindWanted(items, t, 0) == |items| {
      forall j, k | 0 <= j < k < |after| ensures !SameObject(after[j], after[k]) {
        NoneWanted(items, t, 0, j);
      }
    }
  }

  lemma CloseKeepsOneTabEach(state: State, drop: set<nat>)
    requires OneTabEach(state.items) && Valid(state)
    ensures OneTabEach(Closed(state, drop).items)
  {
    KeptInOrder(state.items, |state.items|, drop);
  }

  lemma {:induction false} KeptInOrder(items: seq<Document>, n: nat, drop: set<nat>)
    requires n <= |items| && OneTabEach(items)
    ensures OneTabEach(Keep(items, n, drop))
  {
    if n > 0 {
      KeptInOrder(items, n - 1, drop);
      var kept := Keep(items, n - 1, drop);
      forall k | 0 <= k < |kept| ensures !SameObject(kept[k], items[n - 1]) {
        var j := KeptFrom(items, n - 1, drop, k);
      }
    }
  }

  /** A renaming of a relation meets a tab of the same kind that shows the new name already. */
  ghost predicate MeetsRelation(items: seq<Document>, schema: string, name: string, newName: string) {
    && name != newName
    && (exists j, k :: 0 <= j < |items| && 0 <= k < |items| && ShowBoth(items[j], items[k], schema, name, newName))
  }

  predicate ShowBoth(a: Document, b: Document, schema: string, name: string, newName: string) {
    a.kind == b.kind && IsRelation(a, schema, name) && IsRelation(b, schema, newName)
  }

  lemma RelationRenamedMeets(a: Document, b: Document, schema: string, name: string, newName: string)
    requires !SameObject(a, b)
    ensures SameObject(RelationRenamed(a, schema, name, newName), RelationRenamed(b, schema, name, newName))
      <==> name != newName && (ShowBoth(a, b, schema, name, newName) || ShowBoth(b, a, schema, name, newName))
  {}

  /** After a renaming of a relation there is still one tab for each object exactly when the new name was not open. */
  lemma RenameRelationKeepsOneTabEach(state: State, schema: string, name: string, newName: string)
    requires OneTabEach(state.items)
    ensures OneTabEach(RenameRelation(state, schema, name, newName).items)
      <==> !MeetsRelation(state.items, schema, name, newName)
  {
    var items, after := state.items, RenameRelation(state, schema, name, newName).items;
    if MeetsRelation(items, schema, name, newName) {
      var j, k :| 0 <= j < |items| && 0 <= k < |items| && ShowBoth(items[j], items[k], schema, name, newName);
      if j < k {
        RelationRenamedMeets(items[j], items[k], schema, name, newName);
      } else {
        RelationRenamedMeets(items[k], items[j], schema, name, newName);
      }
      assert SameObject(after[j], after[k]) && SameObject(after[k], after[j]) && j != k;
    } else {
      forall j, k | 0 <= j < k < |after| ensures !SameObject(after[j], after[k]) {
        assert !SameObject(items[j], items[k]);
        RelationRenamedMeets(items[j], items[k], schema, name, newName);
      }
    }
  }

  /** A renaming of a schema meets a tab of the new one that shows an object with the same kind and name. */
  ghost predicate MeetsSchema(items: seq<Document>, schema: string, newName: string) {
    schema != newName && (exists j, k ::
      0 <= j < |items| && 0 <= k < |items| && Counterparts(items[j], items[k], schema, newName))
  }

  predicate Counterparts(a: Document, b: Document, schema: string, newName: string) {
    && a.schema == Some(schema) && b.schema == Some(newName) && a.kind == b.kind
    && !a.kind.Query? && !a.kind.CreateTable? && (OneOfAKind(a.kind) || a.kind.Diagram? || SameName(a, b))
  }

  lemma SchemaRenamedMeets(a: Document, b: Document, schema: string, newName: string)
    requires !SameObject(a, b)
    ensures SameObject(SchemaRenamed(a, schema, newName), SchemaRenamed(b, schema, newName))
      <==> schema != newName && (Counterparts(a, b, schema, newName) || Counterparts(b, a, schema, newName))
  {}

  /** After a renaming of a schema there is still one tab for each object exactly when no object was open in both. */
  lemma RenameSchemaKeepsOneTabEach(state: State, schema: string, newName: string)
    requires OneTabEach(state.items)
    ensures OneTabEach(RenameSchema(state, schema, newName).items) <==> !MeetsSchema(state.items, schema, newName)
  {
    var items, after := state.items, RenameSchema(state, schema, newName).items;
    if MeetsSchema(items, schema, newName) {
      var j, k :| 0 <= j < |items| && 0 <= k < |items| && Counterparts(items[j], items[k], schema, newName);
      if j < k {
        SchemaRenamedMeets(items[j], items[k], schema, newName);
      } else {
        SchemaRenamedMeets(items[k], items[j], schema, newName);
      }
      assert SameObject(after[j], after[k]) && SameObject(after[k], after[j]) && j != k;
    } else {
      forall j, k | 0 <= j < k < |after| ensures !SameObject(after[j], after[k]) {
        assert !SameObject(items[j], items[k]);
        SchemaRenamedMeets(items[j], items[k], schema, newName);
      }
    }
  }

  /** What the names are renamed to is not open already. */
  ghost predicate Fresh(state: State, e: Event) {
    && (e.RenameTable? ==> !MeetsRelation(state.items, e.schema, e.name, e.newName))
    && (e.RenameNamespace? ==> !MeetsSchema(state.items, e.schema, e.newName))
  }

  lemma HappenKeepsOneTabEach(labels: Labels, state: State, e: Event)
    requires Valid(state) && OneTabEach(state.items) && Fresh(state, e)
    ensures OneTabEach(Happen(labels, state, e).items)
  {
    match e
    case Open(t) => OpenKeepsOneTabEach(labels, state, t);
    case Close(drop) => CloseKeepsOneTabEach(state, drop);
    case RenameTable(schema, name, newName) => RenameRelationKeepsOneTabEach(state, schema, name, newName);
    case RenameNamespace(schema, newName) => RenameSchemaKeepsOneTabEach(state, schema, newName);
    case DropTable(schema, name) => WithoutKeepsOneTabEach(state, (doc: Document) => IsRelation(doc, schema, name));
    case DropNamespace(schema) => WithoutKeepsOneTabEach(state, (doc: Document) => doc.schema == Some(schema));
    case Seed => OpenKeepsOneTabEach(labels, state,
      Target(Query, None, None, None, None, None, Some("SELECT 1;"), None, None));
    case Save(id, savedId, title) => OnlyQueriesChange(state.items, Happen(labels, state, e).items);
    case Patch(_, _, _) => OnlyQueriesChange(state.items, Happen(labels, state, e).items);
    case Retitle(_, _) => OnlyQueriesChange(state.items, Happen(labels, state, e).items);
    case Focus(_) =>
  }

  lemma WithoutKeepsOneTabEach(state: State, drop: Document -> bool)
    requires Valid(state) && OneTabEach(state.items)
    ensures OneTabEach(DroppedOneByOne(state, drop).items)
  {
    WithoutIsOneClosing(state, drop);
    CloseKeepsOneTabEach(state, MatchingSet(state.items, drop));
  }

  lemma OnlyQueriesChange(items: seq<Document>, after: seq<Document>)
    requires OneTabEach(items) && |after| == |items|
    requires forall k ::
      0 <= k < |items| ==>
      after[k] == items[k] || (after[k].kind == items[k].kind && (items[k].kind.Query? || items[k].kind.CreateTable?))
    ensures OneTabEach(after)
  {
    forall j, k | 0 <= j < k < |after| ensures !SameObject(after[j], after[k]) {
      assert !SameObject(items[j], items[k]);
    }
  }

  ghost predicate FreshNames(labels: Labels, r: Run) {
    r.Then? ==> FreshNames(labels, r.before) && Fresh(After(labels, r.before), r.event)
  }

  /** Over every run whose renames go to names not open already no object has two tabs. */
  lemma {:induction false} NoObjectHasTwoTabs(labels: Labels, r: Run)
    requires FreshNames(labels, r)
    ensures OneTabEach(After(labels, r).items)
  {
    if r.Begin? {
      OpenKeepsOneTabEach(labels, EMPTY, Target(Query, None, None, None, None, None, Some("SELECT 1;"), None, None));
    } else {
      NoObjectHasTwoTabs(labels, r.before);
      EveryRunIsValid(labels, r.before);
      HappenKeepsOneTabEach(labels, After(labels, r.before), r.event);
    }
  }
}

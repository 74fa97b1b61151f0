/** What a tool call shows over every run: the last that was given for each of its fields. */
module ToolHistory {
  import opened Text
  import opened AssistantConversation
  import opened ConversationRuns

  /** An update of the tool call, or the one that starts it. */
  predicate IsCallOf(e: Event, id: string) { e.Update? && e.update.Call? && e.update.id == Some(id) }

  predicate Seen(r: Run, id: string) { r.Then? && (IsCallOf(r.event, id) || Seen(r.before, id)) }

  function Given<T>(value: Option<T>, before: Option<T>): Option<T> { if value.Some? then value else before }

  function LastName(r: Run, id: string): Option<string> {
    if r.Begin? then None
    else if IsCallOf(r.event, id) then Given(r.event.update.name, LastName(r.before, id))
    else LastName(r.before, id)
  }

  function LastInput(r: Run, id: string): Option<Input> {
    if r.Begin? then None
    else if IsCallOf(r.event, id) then Given(r.event.update.input, LastInput(r.before, id))
    else LastInput(r.before, id)
  }

  function LastStatus(r: Run, id: string): Option<Status> {
    if r.Begin? then None
    else if IsCallOf(r.event, id) then Given(r.event.update.status, LastStatus(r.before, id))
    else LastStatus(r.before, id)
  }

  /** The last text that was not empty. */
  function LastText(r: Run, id: string): Option<string> {
    if r.Begin? then None
    else if IsCallOf(r.event, id) && r.event.update.text != "" then Some(r.event.update.text)
    else LastText(r.before, id)
  }

  /** When the tool call came in, unless that was a replay. */
  function CameAt(r: Run, id: string): Option<int> {
    if r.Begin? then None
    else if IsCallOf(r.event, id) && !Seen(r.before, id) then r.event.now
    else CameAt(r.before, id)
  }

  /** When an update first said that it has ended; an end that came with the tool call itself has no time. */
  function EndedAt(r: Run, id: string): Option<int> {
    if r.Begin? then None
    else if EndedAt(r.before, id).Some? then EndedAt(r.before, id)
    else if IsCallOf(r.event, id) && Seen(r.before, id)
      && (r.event.update.status == Some(Completed) || r.event.update.status == Some(Failed)) then r.event.now
    else None
  }

  function OrElse<T>(value: Option<T>, otherwise: T): T {
    match value
    case Some(x) => x
    case None => otherwise
  }

  /** The fields of a tool call are what was given for them last. */
  predicate IsLast(r: Run, t: Tool) {
    && t.id != "" && Seen(r, t.id)
    && t.tool == OrElse(LastName(r, t.id), "")
    && t.input == OrElse(LastInput(r, t.id), NO_INPUT)
    && t.status == OrElse(LastStatus(r, t.id), Pending)
    && t.output == LastText(r, t.id)
    && t.at == CameAt(r, t.id)
    && t.endedAt == EndedAt(r, t.id)
  }

  predicate IsLastAt(r: Run, items: seq<Item>, k: nat) { k < |items| && items[k].Ran? ==> IsLast(r, items[k].tool) }

  /** The same but for the approval that it carries. */
  predicate SameTool(a: Tool, b: Tool) { a == b.(approval := a.approval) }

  ghost predicate HasTool(items: seq<Item>, t: Tool) {
    exists j :: 0 <= j < |items| && items[j].Ran? && SameTool(t, items[j].tool)
  }

  // ----- where a tool call comes from -----

  lemma {:induction false} ResolvedFrom(items: seq<Item>, n: nat, id: string, k: nat)
    requires n <= |items| && k < |ResolveItems(items, n, id)| && ResolveItems(items, n, id)[k].Ran?
    ensures HasTool(items, ResolveItems(items, n, id)[k].tool)
  {
    var last := items[n - 1];
    var before := ResolveItems(items, n - 1, id);
    if k < |before| {
      ResolvedFrom(items, n - 1, id, k);
    } else {
      assert SameTool(AssistantConversation.Resolve(last, id).tool, last.tool);
    }
  }

  lemma AttachedFrom(c: Conversation, r: Request, k: nat)
    requires k < |Attached(c, r).items| && Attached(c, r).items[k].Ran?
    ensures HasTool(c.items, Attached(c, r).items[k].tool)
  {
    assert k < |c.items| && SameTool(Attached(c, r).items[k].tool, c.items[k].tool);
  }

  lemma AppendedFrom(items: seq<Item>, speaker: Speaker, text: string, now: Option<int>, k: nat)
    requires k < |Append(items, speaker, text, now)| && Append(items, speaker, text, now)[k].Ran?
    ensures HasTool(items, Append(items, speaker, text, now)[k].tool)
  {
    assert k < |items| && SameTool(Append(items, speaker, text, now)[k].tool, items[k].tool);
  }

  lemma FinishedFrom(c: Conversation, error: Option<string>, note: Option<string>, k: nat)
    requires k < |Finished(c, error, note).items| && Finished(c, error, note).items[k].Ran?
    ensures HasTool(c.items, Finished(c, error, note).items[k].tool)
  {
    assert k < |c.items| && SameTool(Finished(c, error, note).items[k].tool, c.items[k].tool);
  }

  predicate IsCall(e: Event) { e.Update? && e.update.Call? && e.update.id.Some? && e.update.id.value != "" }

  /** What is no tool call adds none. */
  lemma {:induction false} OthersKeepTools(c: Conversation, e: Event, k: nat)
    requires !IsCall(e) && k < |Happen(c, e).items| && Happen(c, e).items[k].Ran?
    ensures HasTool(c.items, Happen(c, e).items[k].tool)
  {
    match e
    case Update(u, now) =>
      if u.Chunk? && u.content.Some? && Happen(c, e) != c {
        AppendedFrom(c.items, u.speaker, u.content.value, now, k);
      } else {
        assert SameTool(c.items[k].tool, c.items[k].tool);
      }
    case Attach(r) => AttachedFrom(c, r, k);
    case Resolved(id) => ResolvedFrom(c.items, |c.items|, id, k);
    case UserSent(text) => assert k < |c.items| && SameTool(c.items[k].tool, c.items[k].tool);
    case TurnEnded(error, note) => FinishedFrom(c, error, note, k);
  }

  /** A tool call that none of the items shows. */
  lemma {:induction false} CreatedFrom(items: seq<Item>, created: Tool, k: nat)
    requires k < |WithNewCall(items, created)| && WithNewCall(items, created)[k].Ran?
    ensures var t := WithNewCall(items, created)[k].tool;
      if k + 1 == |WithNewCall(items, created)| then SameTool(t, created) else HasTool(items, t)
  {
    var w := FindCard(items, created, 0);
    if w < |items| && k < |items| - 1 {
      WithoutAt(items, w, k);
      var j := if k < w then k else k + 1;
      assert SameTool(WithNewCall(items, created)[k].tool, items[j].tool);
    } else if w == |items| && k < |items| {
      assert SameTool(items[k].tool, items[k].tool);
    }
  }

  // ----- a tool call is shown once -----

  lemma {:induction false} ShownAt(items: seq<Item>, n: nat, k: nat, m: Mark)
    requires k < n <= |items| && Shows(items[k], m)
    ensures CountTo(items, n, m) >= 1
  {
    if k < n - 1 { ShownAt(items, n - 1, k, m); }
  }

  lemma {:induction false} ShownAtOne(items: seq<Item>, n: nat, j: nat, k: nat, m: Mark)
    requires j < k < n <= |items| && Shows(items[j], m) && Shows(items[k], m)
    ensures CountTo(items, n, m) >= 2
  {
    if k < n - 1 { ShownAtOne(items, n - 1, j, k, m); } else { ShownAt(items, n - 1, j, m); }
  }

  /** No other item shows the tool call that is found. */
  lemma FoundAlone(items: seq<Item>, id: string, k: nat)
    requires ShownOnce(items, ToolCall(id)) && FindTool(items, id, 0) < |items| && k < |items|
    requires k != FindTool(items, id, 0)
    ensures !Shows(items[k], ToolCall(id))
  {
    var at := FindTool(items, id, 0);
    ToolFound(items, id, 0);
    if Shows(items[k], ToolCall(id)) {
      ShownAtOne(items, |items|, if k < at then k else at, if k < at then at else k, ToolCall(id));
    }
  }

  // ----- one event -----

  /** Another event changes nothing that was given for the tool call. */
  lemma OtherGivesNothing(r: Run, t: Tool, was: Tool)
    requires r.Then? && IsLast(r.before, was) && SameTool(t, was) && !IsCallOf(r.event, was.id)
    ensures IsLast(r, t)
  {}

  lemma UpdateGives(r: Run, t: Tool, was: Tool)
    requires r.Then? && IsLast(r.before, was) && IsCallOf(r.event, was.id)
    requires SameTool(t, Updated(was, r.event.update, r.event.now))
    ensures IsLast(r, t)
  {}

  lemma {:induction false} NothingGiven(r: Run, id: string)
    requires !Seen(r, id)
    ensures LastName(r, id) == None && LastInput(r, id) == None && LastStatus(r, id) == None
    ensures LastText(r, id) == None && CameAt(r, id) == None && EndedAt(r, id) == None
  {
    if r.Then? { NothingGiven(r.before, id); }
  }

  lemma StartGives(r: Run, t: Tool, id: string)
    requires r.Then? && id != "" && !Seen(r.before, id) && IsCallOf(r.event, id)
    requires SameTool(t, Created(r.event.update, r.event.now))
    ensures IsLast(r, t)
  {
    NothingGiven(r.before, id);
  }

  // ----- every run -----

  /** The tool calls that have been seen are the ones that are shown. */
  ghost predicate IsShown(items: seq<Item>, id: string) { FindTool(items, id, 0) < |items| }

  ghost predicate Right(r: Run) {
    && (forall k: nat :: k < |After(r).items| ==> IsLastAt(r, After(r).items, k))
    && (forall id :: id != "" ==> (Seen(r, id) <==> IsShown(After(r).items, id)))
  }

  lemma ShownIsCounted(items: seq<Item>, id: string)
    ensures IsShown(items, id) <==> Count(items, ToolCall(id)) >= 1
  {
    if IsShown(items, id) {
      ToolFound(items, id, 0);
      ShownAt(items, |items|, FindTool(items, id, 0), ToolCall(id));
    } else {
      forall k | 0 <= k < |items| ensures !Shows(items[k], ToolCall(id)) { ToolNotFound(items, id, 0, k); }
      NotShown(items, |items|, ToolCall(id));
    }
  }

  /** A tool call stays shown, and comes to be shown by its own call only. */
  lemma {:induction false} ShownStays(c: Conversation, e: Event, id: string)
    requires id != ""
    ensures IsShown(Happen(c, e).items, id) <==> IsShown(c.items, id) || IsCallOf(e, id)
  {
    var after := Happen(c, e).items;
    ShownIsCounted(c.items, id);
    ShownIsCounted(after, id);
    match e
    case Update(u, now) =>
      if u.Chunk? && u.content.Some? { AppendKeeps(c.items, u.speaker, u.content.value, now, ToolCall(id), Agent); }
      if IsCall(e) {
        CallKeeps(c.items, u, now, ToolCall(id), Agent);
        if u.id == Some(id) { CallIsShown(c.items, u, now, id); }
      }
    case Attach(r) => AttachKeeps(c, r, ToolCall(id), Agent);
    case Resolved(a) => ResolveKeeps(c.items, |c.items|, a, ToolCall(id));
    case UserSent(text) => OneMore(c.items, Said(User, text, None), ToolCall(id), Agent);
    case TurnEnded(error, note) => FinishKeeps(c, error, note, ToolCall(id), Agent);
  }

  lemma {:induction false} CallIsShown(items: seq<Item>, u: AssistantConversation.Update, now: Option<int>, id: string)
    requires u.Call? && u.id == Some(id)
    ensures Count(ApplyCall(items, u, now), ToolCall(id)) >= 1
  {
    var at, after := FindTool(items, id, 0), ApplyCall(items, u, now);
    if at < |items| {
      ToolFound(items, id, 0);
      ShownAt(after, |after|, at, ToolCall(id));
    } else {
      ShownAt(after, |after|, |after| - 1, ToolCall(id));
    }
  }

  /** The items after an event that is no tool call. */
  lemma {:induction false} OtherKeepsLast(r: Run, k: nat)
    requires r.Then? && Right(r.before) && !IsCall(r.event) && k < |After(r).items| && After(r).items[k].Ran?
    ensures IsLast(r, After(r).items[k].tool)
  {
    var items := After(r.before).items;
    OthersKeepTools(After(r.before), r.event, k);
    var t := After(r).items[k].tool;
    var j :| 0 <= j < |items| && items[j].Ran? && SameTool(t, items[j].tool);
    assert IsLastAt(r.before, items, j);
    OtherGivesNothing(r, t, items[j].tool);
  }

  /** The items after an update of a tool call that is shown. */
  lemma {:induction false} UpdateKeepsLast(r: Run, k: nat)
    requires r.Then? && Right(r.before) && IsCall(r.event) && IsShown(After(r.before).items, r.event.update.id.value)
    requires ShownOnce(After(r.before).items, ToolCall(r.event.update.id.value))
    requires k < |After(r).items| && After(r).items[k].Ran?
    ensures IsLast(r, After(r).items[k].tool)
  {
    var items, u := After(r.before).items, r.event.update;
    var at := FindTool(items, u.id.value, 0);
    ToolFound(items, u.id.value, 0);
    assert IsLastAt(r.before, items, k);
    if k == at {
      UpdateGives(r, After(r).items[k].tool, items[k].tool);
    } else {
      FoundAlone(items, u.id.value, k);
      OtherGivesNothing(r, After(r).items[k].tool, items[k].tool);
    }
  }

  /** The items after a tool call that starts. */
  lemma {:induction false} StartKeepsLast(r: Run, k: nat)
    requires r.Then? && Right(r.before) && IsCall(r.event) && !IsShown(After(r.before).items, r.event.update.id.value)
    requires k < |After(r).items| && After(r).items[k].Ran?
    ensures IsLast(r, After(r).items[k].tool)
  {
    var items, u := After(r.before).items, r.event.update;
    var id, t := u.id.value, After(r).items[k].tool;
    var created := Created(u, r.event.now);
    assert After(r).items == WithNewCall(items, created);
    CreatedFrom(items, created, k);
    if k + 1 == |After(r).items| {
      StartGives(r, t, id);
    } else {
      var j :| 0 <= j < |items| && items[j].Ran? && SameTool(t, items[j].tool);
      assert IsLastAt(r.before, items, j);
      ToolNotFound(items, id, 0, j);
      OtherGivesNothing(r, t, items[j].tool);
    }
  }

  lemma {:induction false} EventKeepsLast(r: Run, k: nat)
    requires r.Then? && Right(r.before)
    ensures IsLastAt(r, After(r).items, k)
  {
    if k < |After(r).items| && After(r).items[k].Ran? {
      if !IsCall(r.event) {
        OtherKeepsLast(r, k);
      } else if IsShown(After(r.before).items, r.event.update.id.value) {
        EveryRunKeeps(r.before, ToolCall(r.event.update.id.value), Agent);
        UpdateKeepsLast(r, k);
      } else {
        StartKeepsLast(r, k);
      }
    }
  }

  /**
   * In every run exactly the tool calls that came in are shown, and each shows for its name, input, status and text
   * what was given last, for its times when it came in and when an update first said that it has ended.
   */
  lemma {:induction false} EveryRunIsRight(r: Run)
    ensures Right(r)
  {
    if r.Then? {
      EveryRunIsRight(r.before);
      forall k: nat | k < |After(r).items| ensures IsLastAt(r, After(r).items, k) { EventKeepsLast(r, k); }
      forall id | id != "" ensures Seen(r, id) <==> IsShown(After(r).items, id) {
        ShownStays(After(r.before), r.event, id);
      }
    }
  }

  /** The same for one tool call: the item that shows it. */
  lemma ToolShowsTheLast(r: Run, id: string)
    requires id != ""
    ensures var items := After(r).items;
      var at := FindTool(items, id, 0);
      if Seen(r, id) then at < |items| && items[at].Ran? && items[at].tool.id == id && IsLast(r, items[at].tool)
      else at == |items|
  {
    EveryRunIsRight(r);
    var items := After(r).items;
    if IsShown(items, id) {
      ToolFound(items, id, 0);
      assert IsLastAt(r, items, FindTool(items, id, 0));
    }
  }
}

/** Where requests for approval are shown over every run. */
module ApprovalHistory {
  import opened Text
  import opened AssistantConversation
  import opened ConversationRuns
  import opened ToolHistory

  // ----- which requests are shown -----

  /** The request that came first under the id since it was answered last. */
  function Open(r: Run, id: string): Option<Request> {
    if r.Begin? then None
    else
      match r.event
      case Attach(q) => if q.id == id && Open(r.before, id).None? then Some(q) else Open(r.before, id)
      case Resolved(a) => if a == id then None else Open(r.before, id)
      case _ => Open(r.before, id)
  }

  lemma KnownIsCounted(items: seq<Item>, id: string)
    ensures Known(items, id) <==> Count(items, Approval(id)) >= 1
  {
    if Known(items, id) {
      var k :| 0 <= k < |items| && ApprovalId(items[k]) == Some(id);
      ShownAt(items, |items|, k, Approval(id));
    } else {
      forall k | 0 <= k < |items| ensures !Shows(items[k], Approval(id)) { assert ApprovalId(items[k]) != Some(id); }
      NotShown(items, |items|, Approval(id));
    }
  }

  /** What is no request and no answer shows as many. */
  lemma OthersKeepRequests(c: Conversation, e: Event, m: Mark)
    requires !e.Attach? && !e.Resolved? && !m.ToolCall?
    ensures Count(Happen(c, e).items, m) == Count(c.items, m)
  {
    match e
    case Update(u, now) =>
      if u.Chunk? && u.content.Some? { AppendKeeps(c.items, u.speaker, u.content.value, now, m, Agent); }
      if IsCall(e) { CallKeeps(c.items, u, now, m, Agent); }
    case UserSent(text) => OneMore(c.items, Said(User, text, None), m, Agent);
    case TurnEnded(error, note) => FinishKeeps(c, error, note, m, Agent);
  }

  function OneIf(b: bool): nat { if b then 1 else 0 }

  /**
   * In every run each request that is open is shown exactly once, with all that it asks, and no other is shown: none
   * is lost when a tool call takes it over, and an answer takes away its own and no other.
   */
  lemma {:induction false} EveryRequestIsShown(r: Run, q: Request)
    ensures Count(After(r).items, Approval(q.id)) == OneIf(Open(r, q.id).Some?)
    ensures Count(After(r).items, Asking(q)) == OneIf(Open(r, q.id) == Some(q))
  {
    if r.Then? {
      var c := After(r.before);
      EveryRequestIsShown(r.before, q);
      KnownIsCounted(c.items, q.id);
      match r.event
      case Attach(a) =>
        AttachKeeps(c, a, Approval(q.id), Agent);
        AttachKeeps(c, a, Asking(q), Agent);
      case Resolved(id) =>
        ResolveKeeps(c.items, |c.items|, id, Approval(q.id));
        ResolveKeeps(c.items, |c.items|, id, Asking(q));
      case _ =>
        OthersKeepRequests(c, r.event, Approval(q.id));
        OthersKeepRequests(c, r.event, Asking(q));
    }
  }

  // ----- which tool calls show them -----

  /** The tool call runs what the request asks for, and has not ended. */
  predicate Fits(t: Tool, q: Request) {
    t.tool == q.tool && t.input.sql == Some(q.sql) && t.status != Completed && t.status != Failed
  }

  predicate FitsFree(item: Item, q: Request) { item.Ran? && item.tool.approval.None? && Fits(item.tool, q) }

  predicate FitsCard(item: Item, t: Tool) { item.Card? && Fits(t, item.approval) }

  predicate NewRequest(items: seq<Item>, id: string) {
    forall k :: 0 <= k < |items| ==> !Shows(items[k], Approval(id))
  }

  lemma {:induction false} LastTakerIs(items: seq<Item>, q: Request, n: nat, k: nat)
    requires k < n <= |items| && FitsFree(items[k], q) && forall j :: k < j < n ==> !FitsFree(items[j], q)
    ensures LastTaker(items, q, n) == k + 1
  {
    if k < n - 1 { LastTakerIs(items, q, n - 1, k); }
  }

  lemma {:induction false} NoTaker(items: seq<Item>, q: Request, n: nat)
    requires n <= |items| && forall j :: 0 <= j < n ==> !FitsFree(items[j], q)
    ensures LastTaker(items, q, n) == 0
  {
    if n > 0 { NoTaker(items, q, n - 1); }
  }

  /** A new request goes to the last tool call that it fits and that has none, and nothing else changes. */
  lemma GoesToTheLast(c: Conversation, q: Request, k: nat)
    requires NewRequest(c.items, q.id) && k < |c.items| && FitsFree(c.items[k], q)
    requires forall j :: k < j < |c.items| ==> !FitsFree(c.items[j], q)
    ensures Attached(c, q) == c.(items := c.items[k := Ran(c.items[k].tool.(approval := Some(q)))])
  {
    assert !Known(c.items, q.id) by {
      forall j | 0 <= j < |c.items| ensures ApprovalId(c.items[j]) != Some(q.id) {
        assert !Shows(c.items[j], Approval(q.id));
      }
    }
    LastTakerIs(c.items, q, |c.items|, k);
  }

  /** It is an item of its own when there is none. */
  lemma StandsAlone(c: Conversation, q: Request)
    requires NewRequest(c.items, q.id) && forall j :: 0 <= j < |c.items| ==> !FitsFree(c.items[j], q)
    ensures Attached(c, q) == c.(items := c.items + [Card(q)])
  {
    assert !Known(c.items, q.id) by {
      forall j | 0 <= j < |c.items| ensures ApprovalId(c.items[j]) != Some(q.id) {
        assert !Shows(c.items[j], Approval(q.id));
      }
    }
    NoTaker(c.items, q, |c.items|);
  }

  lemma {:induction false} FirstCardIs(items: seq<Item>, t: Tool, i: nat, k: nat)
    requires i <= k < |items| && FitsCard(items[k], t) && forall j :: i <= j < k ==> !FitsCard(items[j], t)
    ensures FindCard(items, t, i) == k
    decreases k - i
  {
    if i < k { FirstCardIs(items, t, i + 1, k); }
  }

  /** A new tool call takes over the first request that stands alone and that it fits. */
  lemma TakesTheFirst(c: Conversation, u: AssistantConversation.Update, now: Option<int>, k: nat)
    requires IsNew(c.items, u) && k < |c.items| && FitsCard(c.items[k], Created(u, now))
    requires forall j :: 0 <= j < k ==> !FitsCard(c.items[j], Created(u, now))
    ensures ApplyUpdate(c, u, now) == c.(items :=
      c.items[..k] + c.items[k + 1..] + [Ran(Created(u, now).(approval := Some(c.items[k].approval)))])
  {
    NewCallAdds(c, u, now);
    FirstCardIs(c.items, Created(u, now), 0, k);
  }

  // ----- over every run -----

  /** The tool call shows the request, and it fits. */
  ghost predicate MeetAt(items: seq<Item>, id: string, q: Request) {
    exists k :: 0 <= k < |items| && items[k].Ran? && items[k].tool.id == id
      && items[k].tool.approval == Some(q) && Fits(items[k].tool, q)
  }

  /** At some moment of the run it did. */
  ghost predicate HaveMet(r: Run, id: string, q: Request) {
    r.Then? && (MeetAt(After(r).items, id, q) || HaveMet(r.before, id, q))
  }

  predicate ShowsAt(items: seq<Item>, k: nat, id: string, q: Request) {
    k < |items| && items[k].Ran? && items[k].tool.id == id && items[k].tool.approval == Some(q)
  }

  ghost predicate ShownBy(items: seq<Item>, id: string, q: Request) { exists k: nat :: ShowsAt(items, k, id, q) }

  lemma {:induction false} ResolvedShowed(items: seq<Item>, n: nat, a: string, k: nat, id: string, q: Request)
    requires n <= |items| && ShowsAt(ResolveItems(items, n, a), k, id, q)
    ensures ShownBy(items, id, q)
  {
    if k < |ResolveItems(items, n - 1, a)| {
      ResolvedShowed(items, n - 1, a, k, id, q);
    } else {
      assert ShowsAt(items, n - 1, id, q);
    }
  }

  lemma {:induction false} CallShowed(items: seq<Item>, created: Tool, k: nat, id: string, q: Request)
    requires created.approval.None? && ShowsAt(WithNewCall(items, created), k, id, q)
    ensures ShownBy(items, id, q) || MeetAt(WithNewCall(items, created), id, q)
  {
    var w := FindCard(items, created, 0);
    if w < |items| && k < |items| - 1 {
      WithoutAt(items, w, k);
      assert ShowsAt(items, if k < w then k else k + 1, id, q);
    } else if w < |items| {
      assert Fits(WithNewCall(items, created)[k].tool, q);
    } else {
      assert ShowsAt(items, k, id, q);
    }
  }

  /** A tool call shows a request because it did before, or they meet. */
  lemma {:induction false} ShowedOrMeets(c: Conversation, e: Event, k: nat, id: string, q: Request)
    requires ShowsAt(Happen(c, e).items, k, id, q)
    ensures ShownBy(c.items, id, q) || MeetAt(Happen(c, e).items, id, q)
  {
    var after := Happen(c, e).items;
    if e.Resolved? {
      ResolvedShowed(c.items, |c.items|, e.id, k, id, q);
    } else if IsCall(e) {
      var at := FindTool(c.items, e.update.id.value, 0);
      if at < |c.items| {
        ToolFound(c.items, e.update.id.value, 0);
        assert ShowsAt(c.items, k, id, q);
      } else {
        CallShowed(c.items, Created(e.update, e.now), k, id, q);
      }
    } else if e.Attach? && after != c.items && k < |c.items| && after[k] != c.items[k] {
      assert Fits(after[k].tool, q);
    } else {
      assert ShowsAt(c.items, k, id, q);
    }
  }

  /** In every run a tool call shows a request only because, when they met, it ran what the request asks for. */
  lemma {:induction false} ShownWhereItFitted(r: Run, id: string, q: Request)
    requires ShownBy(After(r).items, id, q)
    ensures HaveMet(r, id, q)
  {
    var k: nat :| ShowsAt(After(r).items, k, id, q);
    if r.Then? {
      ShowedOrMeets(After(r.before), r.event, k, id, q);
      if ShownBy(After(r.before).items, id, q) { ShownWhereItFitted(r.before, id, q); }
    }
  }
}

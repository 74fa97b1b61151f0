/** What a conversation keeps over every run of what happens to it. */
module ConversationRuns {
  import opened Text
  import opened ContextBlock
  import opened AssistantConversation

  /** What is shown: a tool call, an approval, an approval with all that is asked. */
  datatype Mark = ToolCall(id: string) | Approval(id: string) | Asking(request: Request)

  predicate Shows(item: Item, m: Mark) {
    match m
    case ToolCall(id) => item.Ran? && item.tool.id == id
    case Approval(id) => ApprovalId(item) == Some(id)
    case Asking(r) => ShownRequest(item) == Some(r)
  }

  function ShownRequest(item: Item): Option<Request> {
    if item.Card? then Some(item.approval) else if item.Ran? then item.tool.approval else None
  }

  predicate IsOf(m: Mark, id: string) {
    match m
    case ToolCall(_) => false
    case Approval(a) => a == id
    case Asking(r) => r.id == id
  }

  predicate IsOfRequest(m: Mark, r: Request) { m == Approval(r.id) || m == Asking(r) }

  function One(item: Item, m: Mark): nat { if Shows(item, m) then 1 else 0 }

  /** How many of the first `n` items show it. */
  function CountTo(items: seq<Item>, n: nat, m: Mark): nat
    requires n <= |items|
  {
    if n == 0 then 0 else CountTo(items, n - 1, m) + One(items[n - 1], m)
  }

  function Count(items: seq<Item>, m: Mark): nat { CountTo(items, |items|, m) }

  predicate IsBy(item: Item, who: Speaker) { item.Said? && item.speaker == who }

  function Plus(text: string, item: Item, who: Speaker): string { if IsBy(item, who) then text + item.text else text }

  predicate SameSpoken(a: Item, b: Item, who: Speaker) {
    IsBy(a, who) == IsBy(b, who) && (IsBy(a, who) ==> a.text == b.text)
  }

  /** All that one said in the first `n` items, in one. */
  function TextTo(items: seq<Item>, n: nat, who: Speaker): string
    requires n <= |items|
  {
    if n == 0 then "" else Plus(TextTo(items, n - 1, who), items[n - 1], who)
  }

  function TextBy(items: seq<Item>, who: Speaker): string { TextTo(items, |items|, who) }

  lemma {:induction false} SameCount(items: seq<Item>, others: seq<Item>, n: nat, m: Mark)
    requires n <= |items| && n <= |others| && forall k :: 0 <= k < n ==> One(items[k], m) == One(others[k], m)
    ensures CountTo(items, n, m) == CountTo(others, n, m)
  {
    if n > 0 { SameCount(items, others, n - 1, m); }
  }

  lemma SameTo(items: seq<Item>, others: seq<Item>, n: nat, m: Mark, who: Speaker)
    requires n <= |items| && n <= |others| && forall k :: 0 <= k < n ==> others[k] == items[k]
    ensures CountTo(items, n, m) == CountTo(others, n, m) && TextTo(items, n, who) == TextTo(others, n, who)
  {
    SameCount(items, others, n, m);
    SameText(items, others, n, who);
  }

  lemma OneMore(items: seq<Item>, x: Item, m: Mark, who: Speaker)
    ensures Count(items + [x], m) == Count(items, m) + One(x, m)
    ensures TextBy(items + [x], who) == Plus(TextBy(items, who), x, who)
  {
    SameTo(items, items + [x], |items|, m, who);
  }

  ghost predicate DifferAt(items: seq<Item>, others: seq<Item>, at: nat) {
    |others| == |items| && forall k :: 0 <= k < |items| && k != at ==> others[k] == items[k]
  }

  lemma {:induction false} ReplacedTo(items: seq<Item>, after: seq<Item>, at: nat, n: nat, m: Mark, who: Speaker)
    requires at < n <= |items| && DifferAt(items, after, at) && SameSpoken(items[at], after[at], who)
    ensures CountTo(after, n, m) + One(items[at], m) == CountTo(items, n, m) + One(after[at], m)
    ensures TextTo(after, n, who) == TextTo(items, n, who)
  {
    if at == n - 1 { SameTo(items, after, at, m, who); } else { ReplacedTo(items, after, at, n - 1, m, who); }
  }

  lemma Replaced(items: seq<Item>, at: nat, x: Item, m: Mark, who: Speaker)
    requires at < |items| && SameSpoken(items[at], x, who)
    ensures Count(items[at := x], m) + One(items[at], m) == Count(items, m) + One(x, m)
    ensures TextBy(items[at := x], who) == TextBy(items, who)
  {
    ReplacedTo(items, items[at := x], at, |items|, m, who);
  }

  lemma WithoutAt(items: seq<Item>, at: nat, k: nat)
    requires at < |items| && k < |items| - 1
    ensures Without(items, at)[k] == if k < at then items[k] else items[k + 1]
  {}

  lemma {:induction false} SameText(items: seq<Item>, others: seq<Item>, n: nat, who: Speaker)
    requires n <= |items| && n <= |others| && forall k :: 0 <= k < n ==> SameSpoken(items[k], others[k], who)
    ensures TextTo(items, n, who) == TextTo(others, n, who)
  {
    if n > 0 { SameText(items, others, n - 1, who); }
  }

  lemma {:induction false} CountWithout(items: seq<Item>, at: nat, n: nat, m: Mark)
    requires at < n <= |items|
    ensures CountTo(Without(items, at), n - 1, m) + One(items[at], m) == CountTo(items, n, m)
  {
    if at == n - 1 {
      forall k | 0 <= k < at ensures items[k] == Without(items, at)[k] { WithoutAt(items, at, k); }
      SameCount(items, Without(items, at), at, m);
    } else {
      CountWithout(items, at, n - 1, m);
      WithoutAt(items, at, n - 2);
    }
  }

  lemma {:induction false} TextWithout(items: seq<Item>, at: nat, n: nat, who: Speaker)
    requires at < n <= |items| && !IsBy(items[at], who)
    ensures TextTo(Without(items, at), n - 1, who) == TextTo(items, n, who)
  {
    if at == n - 1 {
      forall k | 0 <= k < at ensures items[k] == Without(items, at)[k] { WithoutAt(items, at, k); }
      SameText(items, Without(items, at), at, who);
    } else {
      TextWithout(items, at, n - 1, who);
      WithoutAt(items, at, n - 2);
    }
  }

  lemma {:induction false} NotShown(items: seq<Item>, n: nat, m: Mark)
    requires n <= |items| && forall k :: 0 <= k < n ==> !Shows(items[k], m)
    ensures CountTo(items, n, m) == 0
  {
    if n > 0 { NotShown(items, n - 1, m); }
  }

  lemma {:induction false} ToolNotFound(items: seq<Item>, id: string, i: nat, k: nat)
    requires i <= |items| && i <= k < FindTool(items, id, i)
    ensures !Shows(items[k], ToolCall(id))
    decreases |items| - i
  {
    if i < k { ToolNotFound(items, id, i + 1, k); }
  }

  lemma {:induction false} ToolFound(items: seq<Item>, id: string, i: nat)
    requires i <= |items| && FindTool(items, id, i) < |items|
    ensures Shows(items[FindTool(items, id, i)], ToolCall(id))
    decreases |items| - i
  {
    if !(items[i].Ran? && items[i].tool.id == id) { ToolFound(items, id, i + 1); }
  }

  // ----- one event -----

  datatype Event =
    | Update(update: AssistantConversation.Update, now: Option<int>)
    | Attach(request: Request)
    | Resolved(id: string)
    | UserSent(text: string)
    | TurnEnded(error: Option<string>, note: Option<string>)

  function Happen(c: Conversation, e: Event): Conversation {
    match e
    case Update(u, now) => ApplyUpdate(c, u, now)
    case Attach(r) => Attached(c, r)
    case Resolved(id) => ResolveApproval(c, id)
    case UserSent(text) => AddUserMessage(c, text)
    case TurnEnded(error, note) => Finished(c, error, note)
  }

  predicate Says(u: AssistantConversation.Update, who: Speaker) { u.Chunk? && u.speaker == who && u.content.Some? }

  predicate AllBlank(text: string) { forall k :: 0 <= k < |text| ==> IsSpace(text[k]) }

  /** The thoughts have the last word. */
  predicate IsThinking(c: Conversation) { c.items != [] && IsBy(c.items[|c.items| - 1], Thought) }

  /** `text` and what is said with an event; a thought of blanks only goes on, but does not begin one. */
  function PlusSaid(text: string, c: Conversation, e: Event, who: Speaker): string {
    if e.UserSent? && who.User? then text + e.text
    else if !(e.Update? && Says(e.update, who)) then text
    else if who.Thought? && AllBlank(e.update.content.value) && !IsThinking(c) then text
    else text + e.update.content.value
  }

  lemma BlankIsAllBlank(text: string)
    ensures IsBlank(text) <==> AllBlank(text)
  {
    if IsBlank(text) {
      forall k | 0 <= k < |text| ensures IsSpace(text[k]) { SkipsBlanks(text, 0, |text|, k); }
    } else {
      assert !IsSpace(text[SkipSpaces(text, 0, |text|)]);
    }
  }

  lemma AppendKeeps(items: seq<Item>, speaker: Speaker, text: string, now: Option<int>, m: Mark, who: Speaker)
    ensures Count(Append(items, speaker, text, now), m) == Count(items, m)
    ensures TextBy(Append(items, speaker, text, now), who) == if speaker == who then TextBy(items, who) + text
      else TextBy(items, who)
  {
    if items != [] && items[|items| - 1].Said? && items[|items| - 1].speaker == speaker {
      LastGrows(items, text, m, who);
    } else {
      OneMore(items, Said(speaker, text, now), m, who);
    }
  }

  lemma LastGrows(items: seq<Item>, text: string, m: Mark, who: Speaker)
    requires items != [] && items[|items| - 1].Said?
    ensures var last := items[|items| - 1];
      var after := items[..|items| - 1] + [last.(text := last.text + text)];
      Count(after, m) == Count(items, m) && TextBy(after, who) == if last.speaker == who then TextBy(items, who) + text
        else TextBy(items, who)
  {
    var n := |items| - 1;
    var last := items[n];
    var after := items[..n] + [last.(text := last.text + text)];
    SameTo(items, after, n, m, who);
    var before := TextTo(items, n, who);
    if last.speaker == who { assert before + last.text + text == before + (last.text + text); }
  }

  /** A tool call shows a new id, or changes the item that shows it; approvals only move. */
  lemma CallKeeps(items: seq<Item>, u: AssistantConversation.Update, now: Option<int>, m: Mark, who: Speaker)
    requires u.Call? && u.id.Some?
    ensures var after := ApplyCall(items, u, now);
      && (Count(after, m) == Count(items, m)
        || (m == ToolCall(u.id.value) && Count(items, m) == 0 && Count(after, m) == 1))
      && TextBy(after, who) == TextBy(items, who)
  {
    var at := FindTool(items, u.id.value, 0);
    if at < |items| {
      ToolFound(items, u.id.value, 0);
      Replaced(items, at, Ran(Updated(items[at].tool, u, now)), m, who);
    } else {
      forall k | 0 <= k < |items| ensures !Shows(items[k], ToolCall(u.id.value)) {
        ToolNotFound(items, u.id.value, 0, k);
      }
      NotShown(items, |items|, ToolCall(u.id.value));
      NewCallKeeps(items, Created(u, now), m, who);
    }
  }

  function WithNewCall(items: seq<Item>, created: Tool): seq<Item> {
    var waiting := FindCard(items, created, 0);
    if waiting < |items| then Without(items, waiting) + [Ran(created.(approval := Some(items[waiting].approval)))]
      else items + [Ran(created)]
  }

  lemma NewCallKeeps(items: seq<Item>, created: Tool, m: Mark, who: Speaker)
    requires created.approval.None?
    ensures Count(WithNewCall(items, created), m) == Count(items, m) + (if m == ToolCall(created.id) then 1 else 0)
    ensures TextBy(WithNewCall(items, created), who) == TextBy(items, who)
  {
    var waiting := FindCard(items, created, 0);
    if waiting < |items| {
      CountWithout(items, waiting, |items|, m);
      TextWithout(items, waiting, |items|, who);
      OneMore(Without(items, waiting), Ran(created.(approval := Some(items[waiting].approval))), m, who);
    } else {
      OneMore(items, Ran(created), m, who);
    }
  }

  lemma AttachKeeps(c: Conversation, r: Request, m: Mark, who: Speaker)
    ensures TextBy(Attached(c, r).items, who) == TextBy(c.items, who)
    ensures var added := !Known(c.items, r.id) && IsOfRequest(m, r);
      && Count(Attached(c, r).items, m) == (if added then 1 else Count(c.items, m))
      && (added ==> Count(c.items, m) == 0)
  {
    if !Known(c.items, r.id) {
      if IsOfRequest(m, r) {
        forall k | 0 <= k < |c.items| ensures !Shows(c.items[k], m) { assert ApprovalId(c.items[k]) != Some(r.id); }
        NotShown(c.items, |c.items|, m);
      }
      var at := LastTaker(c.items, r, |c.items|);
      if at == 0 {
        OneMore(c.items, Card(r), m, who);
      } else {
        Replaced(c.items, at - 1, Ran(c.items[at - 1].tool.(approval := Some(r))), m, who);
      }
    }
  }

  /** An answer takes its approval away and nothing else. */
  lemma {:induction false} ResolveKeeps(items: seq<Item>, n: nat, id: string, m: Mark)
    requires n <= |items|
    ensures Count(ResolveItems(items, n, id), m) == if IsOf(m, id) then 0 else CountTo(items, n, m)
  {
    if n > 0 {
      var last := items[n - 1];
      ResolveKeeps(items, n - 1, id, m);
      if !(last.Card? && last.approval.id == id) {
        OneMore(ResolveItems(items, n - 1, id), AssistantConversation.Resolve(last, id), m, Agent);
      }
    }
  }

  lemma {:induction false} ResolveKeepsText(items: seq<Item>, n: nat, id: string, who: Speaker)
    requires n <= |items|
    ensures TextBy(ResolveItems(items, n, id), who) == TextTo(items, n, who)
  {
    if n > 0 {
      var last := items[n - 1];
      ResolveKeepsText(items, n - 1, id, who);
      if !(last.Card? && last.approval.id == id) {
        OneMore(ResolveItems(items, n - 1, id), AssistantConversation.Resolve(last, id), Approval(id), who);
      }
    }
  }

  lemma NoteKeeps(items: seq<Item>, x: Item, m: Mark, who: Speaker)
    requires x.Error? || x.Note?
    ensures Count(items + [x], m) == Count(items, m) && TextBy(items + [x], who) == TextBy(items, who)
  {
    OneMore(items, x, m, who);
  }

  lemma FinishKeeps(c: Conversation, error: Option<string>, note: Option<string>, m: Mark, who: Speaker)
    ensures Count(Finished(c, error, note).items, m) == Count(c.items, m)
    ensures TextBy(Finished(c, error, note).items, who) == TextBy(c.items, who)
  {
    var errors := if error.Some? && error.value != "" then c.items + [Error(error.value)] else c.items;
    if error.Some? && error.value != "" { NoteKeeps(c.items, Error(error.value), m, who); }
    if note.Some? && note.value != "" { NoteKeeps(errors, Note(note.value), m, who); }
  }

  ghost predicate ShownOnce(items: seq<Item>, m: Mark) { Count(items, m) <= 1 }

  lemma ChunkKeeps(c: Conversation, u: AssistantConversation.Update, now: Option<int>, m: Mark, who: Speaker)
    requires u.Chunk?
    ensures Count(ApplyUpdate(c, u, now).items, m) == Count(c.items, m)
    ensures TextBy(ApplyUpdate(c, u, now).items, who) == PlusSaid(TextBy(c.items, who), c, Update(u, now), who)
  {
    if u.content.Some? {
      AppendKeeps(c.items, u.speaker, u.content.value, now, m, who);
      BlankIsAllBlank(u.content.value);
    }
  }

  lemma UpdateKeeps(c: Conversation, u: AssistantConversation.Update, now: Option<int>, m: Mark, who: Speaker)
    requires ShownOnce(c.items, m)
    ensures ShownOnce(ApplyUpdate(c, u, now).items, m)
    ensures TextBy(ApplyUpdate(c, u, now).items, who) == PlusSaid(TextBy(c.items, who), c, Update(u, now), who)
  {
    if u.Chunk? {
      ChunkKeeps(c, u, now, m, who);
    } else if u.Call? && u.id.Some? {
      CallKeeps(c.items, u, now, m, who);
    }
  }

  lemma HappenKeeps(c: Conversation, e: Event, m: Mark, who: Speaker)
    requires ShownOnce(c.items, m)
    ensures ShownOnce(Happen(c, e).items, m)
    ensures TextBy(Happen(c, e).items, who) == PlusSaid(TextBy(c.items, who), c, e, who)
  {
    match e
    case Update(u, now) => UpdateKeeps(c, u, now, m, who);
    case Attach(r) => AttachKeeps(c, r, m, who);
    case Resolved(id) =>
      ResolveKeeps(c.items, |c.items|, id, m);
      ResolveKeepsText(c.items, |c.items|, id, who);
    case UserSent(text) => OneMore(c.items, Said(User, text, None), m, who);
    case TurnEnded(error, note) => FinishKeeps(c, error, note, m, who);
  }

  // ----- runs -----

  datatype Run = Begin | Then(before: Run, event: Event)

  function After(r: Run): Conversation { if r.Begin? then EMPTY else Happen(After(r.before), r.event) }

  /** All the pieces that one sent, in one. */
  function SaidIn(r: Run, who: Speaker): string {
    if r.Begin? then "" else PlusSaid(SaidIn(r.before, who), After(r.before), r.event, who)
  }

  /**
   * Over every run each tool call and each approval is shown at most once, and what the agent said, what the person
   * said and what was thought are all there, in order.
   */
  lemma {:induction false} EveryRunKeeps(r: Run, m: Mark, who: Speaker)
    ensures ShownOnce(After(r).items, m) && TextBy(After(r).items, who) == SaidIn(r, who)
  {
    if r.Then? {
      EveryRunKeeps(r.before, m, who);
      HappenKeeps(After(r.before), r.event, m, who);
    }
  }

  // ----- title and activity -----

  /** The title that was given last, without its context. */
  function LastTitle(r: Run): Option<string> {
    if r.Begin? then None
    else if r.event.Update? && r.event.update.Title? && r.event.update.title.Some? then
      Some(StripContext(r.event.update.title.value))
    else LastTitle(r.before)
  }

  /** A message was sent and no turn has ended since. */
  function Answering(r: Run): bool {
    r.Then? && (r.event.UserSent? || (!r.event.TurnEnded? && Answering(r.before)))
  }

  lemma {:induction false} EveryRunShows(r: Run)
    ensures After(r).title == LastTitle(r) && After(r).running == Answering(r)
  {
    if r.Then? { EveryRunShows(r.before); }
  }

  // ----- an approval and its tool call, in either order -----

  predicate WaitsFor(x: Item, t: Tool) { x.Card? && Matches(t, x.approval) }

  lemma {:induction false} FindCardMore(items: seq<Item>, more: seq<Item>, t: Tool, i: nat)
    requires i <= |items| && |more| == |items| + 1 && forall k :: 0 <= k < |items| ==> more[k] == items[k]
    ensures FindCard(more, t, i) ==
      if FindCard(items, t, i) < |items| then FindCard(items, t, i)
        else if WaitsFor(more[|items|], t) then |items| else |items| + 1
    decreases |items| - i
  {
    if i < |items| && !WaitsFor(items[i], t) { FindCardMore(items, more, t, i + 1); }
  }

  lemma {:induction false} FindCardSame(items: seq<Item>, after: seq<Item>, t: Tool, i: nat, at: nat)
    requires i <= |items| && DifferAt(items, after, at) && at < |items| && !items[at].Card? && !after[at].Card?
    ensures FindCard(after, t, i) == FindCard(items, t, i)
    decreases |items| - i
  {
    if i < |items| && !WaitsFor(items[i], t) { FindCardSame(items, after, t, i + 1, at); }
  }

  lemma {:induction false} LastTakerSame(items: seq<Item>, others: seq<Item>, r: Request, n: nat)
    requires n <= |items| && n <= |others| && forall k :: 0 <= k < n ==> others[k] == items[k]
    ensures LastTaker(others, r, n) == LastTaker(items, r, n)
  {
    if n > 0 { LastTakerSame(items, others, r, n - 1); }
  }

  lemma {:induction false} LastTakerMore(items: seq<Item>, x: Item, r: Request)
    requires !Takes(x, r)
    ensures LastTaker(items + [x], r, |items| + 1) == LastTaker(items, r, |items|)
  {
    LastTakerSame(items, items + [x], r, |items|);
  }

  lemma {:induction false} LastTakerWithout(items: seq<Item>, at: nat, r: Request, n: nat)
    requires at < n <= |items| && !Takes(items[at], r)
    ensures var last := LastTaker(items, r, n);
      LastTaker(Without(items, at), r, n - 1) == if last <= at then last else last - 1
  {
    if n - 1 == at {
      forall k | 0 <= k < at ensures Without(items, at)[k] == items[k] { WithoutAt(items, at, k); }
      LastTakerSame(items, Without(items, at), r, at);
    } else {
      WithoutAt(items, at, n - 2);
      LastTakerWithout(items, at, r, n - 1);
    }
  }

  lemma {:induction false} FindToolIs(items: seq<Item>, id: string, i: nat)
    requires i <= |items| && forall k :: i <= k < |items| ==> !Shows(items[k], ToolCall(id))
    ensures FindTool(items, id, i) == |items|
    decreases |items| - i
  {
    if i < |items| { FindToolIs(items, id, i + 1); }
  }

  /** An item takes the request: a tool call it matches, without an approval. */
  predicate HasTaker(items: seq<Item>, r: Request) { LastTaker(items, r, |items|) > 0 }

  /** A card waits for such a tool call. */
  predicate HasCard(items: seq<Item>, t: Tool) { FindCard(items, t, 0) < |items| }

  /** A new tool call, as `ApplyUpdate` adds it. */
  ghost predicate IsNew(items: seq<Item>, u: AssistantConversation.Update) {
    u.Call? && u.id.Some? && u.id.value != "" && forall k :: 0 <= k < |items| ==> !Shows(items[k], ToolCall(u.id.value))
  }

  lemma NewCallAdds(c: Conversation, u: AssistantConversation.Update, now: Option<int>)
    requires IsNew(c.items, u)
    ensures ApplyUpdate(c, u, now) == c.(items := WithNewCall(c.items, Created(u, now)))
  {
    FindToolIs(c.items, u.id.value, 0);
  }

  /** A new tool call and a new request that it matches. */
  ghost predicate Meet(c: Conversation, r: Request, u: AssistantConversation.Update, now: Option<int>) {
    IsNew(c.items, u) && Matches(Created(u, now), r) && !Known(c.items, r.id)
  }

  /** The request first, where an item takes it. */
  function Taken(items: seq<Item>, r: Request): seq<Item> {
    var at := LastTaker(items, r, |items|);
    if at > 0 then items[at - 1 := Ran(items[at - 1].tool.(approval := Some(r)))] else items + [Card(r)]
  }

  lemma ApprovalFirst(c: Conversation, r: Request, u: AssistantConversation.Update, now: Option<int>)
    requires Meet(c, r, u, now)
    ensures Attached(c, r) == c.(items := Taken(c.items, r))
    ensures ApplyUpdate(Attached(c, r), u, now) == c.(items := WithNewCall(Taken(c.items, r), Created(u, now)))
  {
    NewCallAdds(Attached(c, r), u, now);
  }

  lemma CallFirst(c: Conversation, r: Request, u: AssistantConversation.Update, now: Option<int>)
    requires Meet(c, r, u, now)
    ensures Attached(ApplyUpdate(c, u, now), r) == c.(items := Taken(WithNewCall(c.items, Created(u, now)), r))
  {
    var items := WithNewCall(c.items, Created(u, now));
    NewCallAdds(c, u, now);
    var w := FindCard(c.items, Created(u, now), 0);
    if w < |c.items| { assert ApprovalId(c.items[w]) != Some(r.id); }
    forall k | 0 <= k < |items| ensures ApprovalId(items[k]) != Some(r.id) {
      if w < |c.items| && k < |items| - 1 { WithoutAt(c.items, w, k); }
      if k < |c.items| { assert ApprovalId(c.items[k]) != Some(r.id); }
      if k + 1 < |c.items| { assert ApprovalId(c.items[k + 1]) != Some(r.id); }
    }
  }

  lemma NeitherTakes(items: seq<Item>, t: Tool, r: Request)
    requires Matches(t, r) && t.approval.None? && !HasTaker(items, r) && !HasCard(items, t)
    ensures WithNewCall(Taken(items, r), t) == Taken(WithNewCall(items, t), r) == items + [Ran(t.(approval := Some(r)))]
  {
    var cards := items + [Card(r)];
    FindCardMore(items, cards, t, 0);
    assert Without(cards, |items|) == items;
    var calls := items + [Ran(t)];
    assert calls[|calls| - 1 := Ran(t.(approval := Some(r)))] == items + [Ran(t.(approval := Some(r)))];
  }

  lemma OnlyAnItemTakes(items: seq<Item>, t: Tool, r: Request)
    requires Matches(t, r) && t.approval.None? && HasTaker(items, r) && !HasCard(items, t)
    ensures WithNewCall(Taken(items, r), t) != Taken(WithNewCall(items, t), r)
  {
    var at := LastTaker(items, r, |items|) - 1;
    var one := Taken(items, r);
    FindCardSame(items, one, t, 0, at);
    assert WithNewCall(one, t)[at] == Ran(items[at].tool.(approval := Some(r)));
    assert Taken(WithNewCall(items, t), r)[at] == items[at];
  }

  lemma OnlyACardWaits(items: seq<Item>, t: Tool, r: Request)
    requires Matches(t, r) && t.approval.None? && !HasTaker(items, r) && HasCard(items, t)
    ensures WithNewCall(Taken(items, r), t) != Taken(WithNewCall(items, t), r)
  {
    var w := FindCard(items, t, 0);
    FindCardMore(items, items + [Card(r)], t, 0);
    var calls := WithNewCall(items, t);
    assert WithNewCall(Taken(items, r), t)[|items|].Ran?;
    LastTakerWithout(items, w, r, |items|);
    LastTakerMore(Without(items, w), Ran(t.(approval := Some(items[w].approval))), r);
    assert Taken(calls, r)[|items|] == Card(r);
  }

  /** Where an item is once the one at `w` is out. */
  function Place(at: nat, w: nat): nat
    requires at != w
  {
    if at < w then at else at - 1
  }

  lemma WithoutReplaced(items: seq<Item>, at: nat, w: nat, x: Item, y: Item)
    requires at < |items| && w < |items| && at != w
    ensures Without(items[at := x], w) + [y] == (Without(items, w) + [y])[Place(at, w) := x]
    ensures (Without(items, w) + [y])[Place(at, w)] == items[at]
  {
    var a, b := Without(items[at := x], w) + [y], (Without(items, w) + [y])[Place(at, w) := x];
    WithoutAt(items, w, Place(at, w));
    forall k | 0 <= k < |a| ensures a[k] == b[k] {
      if k < |items| - 1 {
        WithoutAt(items, w, k);
        WithoutAt(items[at := x], w, k);
      }
    }
  }

  /** The card at `w` gives way to a call that does not take the request. */
  lemma {:induction false} TakerBehindCard(items: seq<Item>, w: nat, x: Item, r: Request)
    requires w < |items| && items[w].Card? && !Takes(x, r)
    ensures var calls, last := Without(items, w) + [x], LastTaker(items, r, |items|);
      LastTaker(calls, r, |calls|) == if last <= w then last else last - 1
  {
    LastTakerWithout(items, w, r, |items|);
    LastTakerMore(Without(items, w), x, r);
  }

  lemma {:induction false} TakerAfterCall(items: seq<Item>, t: Tool, r: Request)
    requires HasTaker(items, r) && HasCard(items, t)
    ensures var calls := WithNewCall(items, t);
      LastTaker(calls, r, |calls|) == Place(LastTaker(items, r, |items|) - 1, FindCard(items, t, 0)) + 1
  {
    var w := FindCard(items, t, 0);
    TakerBehindCard(items, w, Ran(t.(approval := Some(items[w].approval))), r);
  }

  /** The new call with the card it takes over. */
  function WithCard(items: seq<Item>, t: Tool): Item {
    var w := FindCard(items, t, 0);
    Ran(if w < |items| then t.(approval := Some(items[w].approval)) else t)
  }

  lemma {:induction false} CallAfterTaker(items: seq<Item>, t: Tool, r: Request)
    requires HasTaker(items, r) && HasCard(items, t)
    ensures var at, w := LastTaker(items, r, |items|) - 1, FindCard(items, t, 0);
      at != w && WithNewCall(Taken(items, r), t)
        == Without(items[at := Ran(items[at].tool.(approval := Some(r)))], w) + [WithCard(items, t)]
  {
    FindCardSame(items, Taken(items, r), t, 0, LastTaker(items, r, |items|) - 1);
  }

  lemma {:induction false} BothTake(items: seq<Item>, t: Tool, r: Request)
    requires Matches(t, r) && t.approval.None? && HasTaker(items, r) && HasCard(items, t)
    ensures WithNewCall(Taken(items, r), t) == Taken(WithNewCall(items, t), r)
  {
    var at, w := LastTaker(items, r, |items|) - 1, FindCard(items, t, 0);
    CallAfterTaker(items, t, r);
    TakerAfterCall(items, t, r);
    WithoutReplaced(items, at, w, Ran(items[at].tool.(approval := Some(r))), WithCard(items, t));
  }

  /**
   * A new tool call and an approval that it matches give the same conversation in either order exactly when
   * neither another item takes the approval nor another card waits for the call, or when both do.
   */
  lemma OrderDoesNotMatter(c: Conversation, r: Request, u: AssistantConversation.Update, now: Option<int>)
    requires Meet(c, r, u, now)
    ensures ApplyUpdate(Attached(c, r), u, now) == Attached(ApplyUpdate(c, u, now), r)
      <==> (HasTaker(c.items, r) <==> HasCard(c.items, Created(u, now)))
    ensures !HasTaker(c.items, r) && !HasCard(c.items, Created(u, now)) ==>
      Attached(ApplyUpdate(c, u, now), r).items == c.items + [Ran(Created(u, now).(approval := Some(r)))]
  {
    ApprovalFirst(c, r, u, now);
    CallFirst(c, r, u, now);
    var t := Created(u, now);
    if HasTaker(c.items, r) {
      if HasCard(c.items, t) { BothTake(c.items, t, r); } else { OnlyAnItemTakes(c.items, t, r); }
    } else {
      if HasCard(c.items, t) { OnlyACardWaits(c.items, t, r); } else { NeitherTakes(c.items, t, r); }
    }
  }
}

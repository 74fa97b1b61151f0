/** The conversation that the panel shows, built from what the agent sends. */
module AssistantConversation {
  import opened Text
  import opened ContextBlock

  datatype Status = Pending | InProgress | Completed | Failed

  /** What a tool was given: the statement, if there is one, and the rest. */
  datatype Input = Input(sql: Option<string>, rest: string)

  const NO_INPUT := Input(None, "{}")

  datatype Request = Request(id: string, tool: string, sql: string, analyze: bool)

  datatype Tool = Tool(
    id: string, tool: string, input: Input, status: Status, output: Option<string>,
    approval: Option<Request>, at: Option<int>, endedAt: Option<int>)

  datatype Speaker = Agent | Thought | User

  datatype Item =
    | Said(speaker: Speaker, text: string, at: Option<int>)
    | Ran(tool: Tool)
    | Card(approval: Request)
    | Error(text: string)
    | Note(text: string)

  datatype Conversation = Conversation(items: seq<Item>, running: bool, title: Option<string>)

  const EMPTY := Conversation([], false, None)

  /**
   * A `session/update`, as far as it is read: a piece of text (none when the content is no text), a title, a tool
   * call or an update of one; anything else.
   */
  datatype Update =
    | Chunk(speaker: Speaker, content: Option<string>)
    | Title(title: Option<string>)
    | Call(id: Option<string>, name: Option<string>, input: Option<Input>, status: Option<Status>, text: string)
    | Other

  predicate Unfinished(s: Status) { !s.Completed? && !s.Failed? }

  predicate Matches(t: Tool, r: Request) { t.tool == r.tool && t.input.sql == Some(r.sql) && Unfinished(t.status) }

  /** Text of the one who spoke last goes on there; else an item of its own begins. */
  function Append(items: seq<Item>, speaker: Speaker, text: string, now: Option<int>): seq<Item> {
    if items != [] && items[|items| - 1].Said? && items[|items| - 1].speaker == speaker then
      var last := items[|items| - 1];
      items[..|items| - 1] + [last.(text := last.text + text)]
    else items + [Said(speaker, text, now)]
  }

  /** The first item that shows the tool call, or the length. */
  function FindTool(items: seq<Item>, id: string, i: nat): (at: nat)
    requires i <= |items|
    ensures i <= at <= |items|
    decreases |items| - i
  {
    if i == |items| || (items[i].Ran? && items[i].tool.id == id) then i else FindTool(items, id, i + 1)
  }

  /** The first card that waits for such a tool call, or the length. */
  function FindCard(items: seq<Item>, t: Tool, i: nat): (at: nat)
    requires i <= |items|
    ensures i <= at <= |items|
    ensures at < |items| ==> items[at].Card? && Matches(t, items[at].approval)
    decreases |items| - i
  {
    if i == |items| || (items[i].Card? && Matches(t, items[i].approval)) then i else FindCard(items, t, i + 1)
  }

  function Or<T>(value: Option<T>, otherwise: T): T { if value.Some? then value.value else otherwise }

  function Updated(t: Tool, u: Update, now: Option<int>): Tool
    requires u.Call?
  {
    t.(tool := Or(u.name, t.tool), input := Or(u.input, t.input), status := Or(u.status, t.status),
       output := if u.text != "" then Some(u.text) else t.output,
       endedAt := if now.Some? && u.status.Some? && !Unfinished(u.status.value) && t.endedAt.None? then now
         else t.endedAt)
  }

  function Created(u: Update, now: Option<int>): Tool
    requires u.Call? && u.id.Some?
  {
    Tool(u.id.value, Or(u.name, ""), Or(u.input, NO_INPUT), Or(u.status, Pending), if u.text != "" then Some(u.text)
      else None, None, now, None)
  }

  function Without(items: seq<Item>, at: nat): (rest: seq<Item>)
    requires at < |items|
    ensures |rest| == |items| - 1
  {
    items[..at] + items[at + 1..]
  }

  function ApplyCall(items: seq<Item>, u: Update, now: Option<int>): seq<Item>
    requires u.Call? && u.id.Some?
  {
    var at := FindTool(items, u.id.value, 0);
    if at < |items| && items[at].Ran? then items[at := Ran(Updated(items[at].tool, u, now))]
    else
      var created := Created(u, now);
      var waiting := FindCard(items, created, 0);
      if waiting < |items| then Without(items, waiting) + [Ran(created.(approval := Some(items[waiting].approval)))]
      else items + [Ran(created)]
  }

  predicate IsBlank(text: string) { SkipSpaces(text, 0, |text|) == |text| }

  predicate LastIsThought(items: seq<Item>) {
    items != [] && items[|items| - 1].Said? && items[|items| - 1].speaker.Thought?
  }

  /** The conversation after an update; a replay has no time `now`. */
  function ApplyUpdate(c: Conversation, u: Update, now: Option<int>): Conversation {
    match u
    case Chunk(speaker, content) =>
      if content.None? || (speaker.Thought? && IsBlank(content.value) && !LastIsThought(c.items)) then c
      else c.(items := Append(c.items, speaker, content.value, now))
    case Title(title) => if title.Some? then c.(title := Some(StripContext(title.value))) else c
    case Call(id, _, _, _, _) => if id.None? || id.value == "" then c else c.(items := ApplyCall(c.items, u, now))
    case Other => c
  }

  function AddUserMessage(c: Conversation, text: string): Conversation {
    c.(running := true, items := c.items + [Said(User, text, None)])
  }

  function Finished(c: Conversation, error: Option<string>, note: Option<string>): Conversation {
    var errors := if error.Some? && error.value != "" then c.items + [Error(error.value)] else c.items;
    c.(running := false, items := if note.Some? && note.value != "" then errors + [Note(note.value)] else errors)
  }

  /** The id of the approval that an item waits for. */
  function ApprovalId(item: Item): Option<string> {
    if item.Card? then Some(item.approval.id)
    else if item.Ran? && item.tool.approval.Some? then Some(item.tool.approval.value.id)
    else None
  }

  predicate Takes(item: Item, r: Request) { item.Ran? && item.tool.approval.None? && Matches(item.tool, r) }

  /** One past the last of the first `n` items that takes the request, or 0. */
  function LastTaker(items: seq<Item>, r: Request, n: nat): (at: nat)
    requires n <= |items|
    ensures at <= n && (at > 0 ==> Takes(items[at - 1], r))
  {
    if n == 0 then 0 else if Takes(items[n - 1], r) then n else LastTaker(items, r, n - 1)
  }

  predicate Known(items: seq<Item>, id: string) { exists k :: 0 <= k < |items| && ApprovalId(items[k]) == Some(id) }

  function Attached(c: Conversation, r: Request): Conversation {
    if Known(c.items, r.id) then c
    else
      var at := LastTaker(c.items, r, |c.items|);
      if at == 0 then c.(items := c.items + [Card(r)])
      else c.(items := c.items[at - 1 := Ran(c.items[at - 1].tool.(approval := Some(r)))])
  }

  /** Shows a request for approval: with the last tool call that takes it, else as an item. */
  method AttachApproval(c: Conversation, r: Request) returns (attached: Conversation)
    ensures attached == Attached(c, r)
  {
    if exists k :: 0 <= k < |c.items| && ApprovalId(c.items[k]) == Some(r.id) { return c; }
    var at := -1;
    for i := 0 to |c.items|
      invariant at + 1 == LastTaker(c.items, r, i)
    {
      if Takes(c.items[i], r) { at := i; }
    }
    if at < 0 { return c.(items := c.items + [Card(r)]); }
    attached := c.(items := c.items[at := Ran(c.items[at].tool.(approval := Some(r)))]);
  }

  function Resolve(item: Item, id: string): Item {
    if item.Ran? && item.tool.approval.Some?
      && item.tool.approval.value.id == id then Ran(item.tool.(approval := None)) else item
  }

  /** The first `n` items, without the approval. */
  function ResolveItems(items: seq<Item>, n: nat, id: string): seq<Item>
    requires n <= |items|
  {
    if n == 0 then []
    else
      var before, last := ResolveItems(items, n - 1, id), items[n - 1];
      if last.Card? && last.approval.id == id then before else before + [Resolve(last, id)]
  }

  /** Takes a request for approval away, wherever it is shown. */
  function ResolveApproval(c: Conversation, id: string): Conversation {
    c.(items := ResolveItems(c.items, |c.items|, id))
  }
}

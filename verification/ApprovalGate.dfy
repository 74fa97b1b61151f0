/**
 * The gate in front of every statement that the assistant reads or analyzes: the reading check, then the person's
 * say. `Approvals` has the atomic sections of the source; the protocol is every interleaving of tool calls and answers.
 */
module ApprovalGate {
  import opened Text

  datatype Decision = Once | ReadsInChat | Decline

  /** The requests that wait, with their conversations, and the answers that have been sent. */
  datatype Board = Board(pending: map<string, string>, replies: map<string, Decision>)

  function Asked(b: Board, id: string, conversation: string): Board { b.(pending := b.pending[id := conversation]) }

  function Answered(b: Board, id: string, decision: Decision): Board {
    if id in b.pending then Board(b.pending - {id}, b.replies[id := decision]) else b
  }

  /** The requests that wait in a conversation. */
  function WaitingIn(b: Board, conversation: string): set<string> {
    set id | id in b.pending && b.pending[id] == conversation
  }

  /** Declines some requests. */
  function DeclineThese(b: Board, ids: set<string>): Board {
    Board(b.pending - ids, map id | id in b.replies.Keys + ids :: if id in ids then Decline else b.replies[id])
  }

  class Approvals {
    var pending: map<string, string>
    var replies: map<string, Decision>

    constructor ()
      ensures View() == Board(map[], map[])
    {
      pending, replies := map[], map[];
    }

    function View(): Board
      reads this
    {
      Board(pending, replies)
    }

    /** Registers a request; its answer is awaited afterwards. */
    method Ask(id: string, conversation: string)
      modifies this`pending
      ensures View() == Asked(old(View()), id, conversation)
    {
      pending := pending[id := conversation];
    }

    /** Resolves what waits under an id; tells whether there was a request and it is still listened to. */
    method Answer(id: string, decision: Decision, listening: bool) returns (ok: bool)
      modifies this
      ensures View() == Answered(old(View()), id, decision)
      ensures ok == (id in old(pending) && listening)
    {
      if id !in pending { return false; }
      pending := pending - {id};
      replies := replies[id := decision];
      ok := listening;
    }

    method DeclineOne(id: string)
      modifies this
      ensures View() == Declined(old(View()), id)
    {
      if id in pending {
        pending := pending - {id};
        replies := replies[id := Decline];
      }
    }

    /** Resolves all requests of a conversation, one after another. */
    method DeclineAll(conversation: string)
      modifies this
      ensures View() == DeclineThese(old(View()), WaitingIn(old(View()), conversation))
    {
      ghost var before := View();
      var ids := set id | id in pending && pending[id] == conversation;
      ghost var all := ids;
      NoneDeclined(before, all);
      while ids != {}
        invariant ids <= all <= before.pending.Keys && View() == DeclineThese(before, all - ids)
        decreases |ids|
      {
        var id :| id in ids;
        OneMoreDeclined(before, all, ids, id);
        DeclineOne(id);
        ids := ids - {id};
      }
      assert all - {} == all;
    }
  }

  function Declined(b: Board, id: string): Board {
    if id in b.pending then Board(b.pending - {id}, b.replies[id := Decline]) else b
  }

  lemma NoneDeclined(b: Board, all: set<string>)
    ensures DeclineThese(b, all - all) == b
  {}

  lemma OneMoreDeclined(b: Board, all: set<string>, ids: set<string>, id: string)
    requires ids <= all && id in ids && id in b.pending
    ensures Declined(DeclineThese(b, all - ids), id) == DeclineThese(b, all - (ids - {id}))
  {
    var done := all - ids;
    assert all - (ids - {id}) == done + {id};
    assert b.pending - done - {id} == b.pending - (done + {id});
  }

  /** Declining resolves all requests that wait in the conversation and no others. */
  lemma DeclinesItsOwn(b: Board, conversation: string, id: string)
    ensures var after := DeclineThese(b, WaitingIn(b, conversation));
      && (id in b.pending && b.pending[id] == conversation ==>
        id !in after.pending && id in after.replies && after.replies[id] == Decline)
      && (id in b.pending && b.pending[id] != conversation ==>
        id in after.pending && after.pending[id] == b.pending[id])
      && (id !in b.pending ==> id !in after.pending && (id in after.replies <==> id in b.replies))
      && (id !in b.pending && id in b.replies ==> after.replies[id] == b.replies[id])
  {}

  // ----- the protocol -----

  type Call = nat

  datatype Tool = RunQuery | ExplainAnalyze | ExplainOnly

  datatype Job = Job(tool: Tool, conversation: string, sql: string)

  /** What does not change: which statements the reading check accepts, and the options of the conversations. */
  datatype Setup = Setup(accepts: string -> bool, asks: string -> bool, schemaOnly: string -> bool)

  datatype Phase =
    | Called
    | Checked
    | MustAsk
    | Waiting(id: string)
    | Allowing(id: string)     // the answer was to allow reads in the chat
    | Granted
    | Refused
    | Abandoned(id: string)
    | Ran                      // the statement was read or analyzed
    | Planned                  // a plan without running anything

  /** `jobs`, `asker` and `about` only remember: what a call does, which call a request is of, in which conversation. */
  datatype State = State(
    board: Board, allowed: set<string>, calls: map<Call, Phase>,
    jobs: map<Call, Job>, asker: map<string, Call>, about: map<string, string>)

  const START := State(Board(map[], map[]), {}, map[], map[], map[], map[])

  datatype Step =
    | Enter(call: Call, job: Job)
    | Check(call: Call)
    | NoReader(call: Call)
    | Look(call: Call)
    | Ask(call: Call, id: string)
    | Receive(call: Call)
    | Allow(call: Call)
    | Run(call: Call)
    | Abandon(call: Call)
    | Answer(id: string, decision: Decision)
    | DeclineAll(conversation: string)

  predicate Enabled(s: State, step: Step) {
    match step
    case Enter(c, _) => c !in s.calls
    case Check(c) => c in s.calls && c in s.jobs && s.calls[c].Called?
    // a database that cannot be read is found out after the reading check, one that cannot explain before it
    case NoReader(c) => c in s.calls && c in s.jobs
      && (if s.jobs[c].tool.RunQuery? then s.calls[c].Checked? else s.calls[c].Called?)
    case Look(c) => c in s.calls && c in s.jobs && s.calls[c].Checked?
    case Ask(c, id) => c in s.calls && c in s.jobs && s.calls[c].MustAsk? && id !in s.about     // a new UUID
    case Receive(c) => c in s.calls && s.calls[c].Waiting? && s.calls[c].id in s.board.replies
    case Allow(c) => c in s.calls && c in s.jobs && s.calls[c].Allowing?
    case Run(c) => c in s.calls && s.calls[c].Granted?
    case Abandon(c) => c in s.calls && s.calls[c].Waiting?
    case _ => true
  }

  function Goes(s: State, c: Call, phase: Phase): State { s.(calls := s.calls[c := phase]) }

  /** The checks before the person is asked. */
  function AfterCheck(setup: Setup, job: Job): Phase {
    if job.tool.ExplainOnly? then Planned
    else if !setup.accepts(job.sql) then Refused
    else if job.tool.ExplainAnalyze? && setup.schemaOnly(job.conversation) then Refused
    else Checked
  }

  function AfterReply(id: string, d: Decision): Phase {
    match d
    case Once => Granted
    case ReadsInChat => Allowing(id)
    case Decline => Refused
  }

  function Next(setup: Setup, s: State, step: Step): State
    requires Enabled(s, step)
  {
    match step
    case Enter(c, job) => Goes(s, c, Called).(jobs := s.jobs[c := job])
    case Check(c) => Goes(s, c, AfterCheck(setup, s.jobs[c]))
    case NoReader(c) => Goes(s, c, Refused)
    case Look(c) => Goes(s, c, if !setup.asks(s.jobs[c].conversation)
      || s.jobs[c].conversation in s.allowed then Granted else MustAsk)
    case Ask(c, id) =>
      var conversation := s.jobs[c].conversation;
      Goes(s, c, Waiting(id)).(board := Asked(s.board, id, conversation), asker := s.asker[id := c],
        about := s.about[id := conversation])
    case Receive(c) => Goes(s, c, AfterReply(s.calls[c].id, s.board.replies[s.calls[c].id]))
    case Allow(c) => Goes(s, c, Granted).(allowed := s.allowed + {s.jobs[c].conversation})
    case Run(c) => Goes(s, c, Ran)
    case Abandon(c) => Goes(s, c, Abandoned(s.calls[c].id))
    case Answer(id, d) => s.(board := Answered(s.board, id, d))
    case DeclineAll(conversation) => s.(board := DeclineThese(s.board, WaitingIn(s.board, conversation)))
  }

  // ----- what every run keeps -----

  /** The request `id` was answered so that reads are allowed in the conversation. */
  predicate Opens(s: State, id: string, conversation: string) {
    id in s.board.replies && s.board.replies[id].ReadsInChat? && id in s.about && s.about[id] == conversation
  }

  /** The request `id` is the call's own and was granted. */
  predicate Grants(s: State, id: string, c: Call) {
    id in s.board.replies && !s.board.replies[id].Decline? && id in s.asker && s.asker[id] == c
  }

  ghost predicate Open(s: State, conversation: string) { exists id :: Opens(s, id, conversation) }

  /** The person agreed: to this statement, or before to reads in this conversation. */
  ghost predicate Agreed(s: State, c: Call)
    requires c in s.jobs
  {
    (exists id :: Grants(s, id, c)) || Open(s, s.jobs[c].conversation)
  }

  predicate PastCheck(p: Phase) {
    p.Checked? || p.MustAsk? || p.Waiting? || p.Allowing? || p.Granted? || p.Abandoned? || p.Ran?
  }

  ghost predicate CallAt(setup: Setup, s: State, c: Call)
    requires c in s.calls
  {
    var p := s.calls[c];
    && c in s.jobs
    && (PastCheck(p) ==> setup.accepts(s.jobs[c].sql) && !s.jobs[c].tool.ExplainOnly?)
    && (p.Waiting? || p.Allowing? ==>
      p.id in s.asker && s.asker[p.id] == c && p.id in s.about && s.about[p.id] == s.jobs[c].conversation)
    && (p.Waiting? ==> p.id in s.board.pending || p.id in s.board.replies)
    && (p.Allowing? ==> Opens(s, p.id, s.jobs[c].conversation) && Grants(s, p.id, c))
    && (p.Granted? || p.Ran? ==> setup.asks(s.jobs[c].conversation) ==> Agreed(s, c))
  }

  ghost predicate RequestAt(s: State, id: string) {
    && (id in s.board.pending ==> id in s.about && s.about[id] == s.board.pending[id] && id !in s.board.replies)
    && (id in s.board.replies ==> id in s.about)
    && (id in s.about <==> id in s.asker)
  }

  ghost predicate Inv(setup: Setup, s: State) {
    && (forall c {:trigger CallAt(setup, s, c)} :: c in s.calls ==> CallAt(setup, s, c))
    && (forall id {:trigger RequestAt(s, id)} :: RequestAt(s, id))
    && (forall v {:trigger Open(s, v)} :: v in s.allowed ==> Open(s, v))
  }

  /** An answer that has been sent stays, and so does what it opens and grants. */
  lemma RepliesStay(setup: Setup, s: State, step: Step, id: string)
    requires Inv(setup, s) && Enabled(s, step) && id in s.board.replies
    ensures id in Next(setup, s, step).board.replies && Next(setup, s, step).board.replies[id] == s.board.replies[id]
    ensures id in s.about ==> id in Next(setup, s, step).about && Next(setup, s, step).about[id] == s.about[id]
    ensures id in s.asker ==> id in Next(setup, s, step).asker && Next(setup, s, step).asker[id] == s.asker[id]
  {
    assert RequestAt(s, id);
    if step.DeclineAll? { DeclinesItsOwn(s.board, step.conversation, id); }
  }

  lemma OpenStays(setup: Setup, s: State, step: Step, v: string)
    requires Inv(setup, s) && Enabled(s, step) && Open(s, v)
    ensures Open(Next(setup, s, step), v)
  {
    var id :| Opens(s, id, v);
    RepliesStay(setup, s, step, id);
    assert Opens(Next(setup, s, step), id, v);
  }

  lemma AgreedStays(setup: Setup, s: State, step: Step, c: Call)
    requires Inv(setup, s) && Enabled(s, step) && c in s.jobs && c in s.calls && Agreed(s, c)
    ensures c in Next(setup, s, step).jobs && Agreed(Next(setup, s, step), c)
  {
    var n := Next(setup, s, step);
    if Open(s, s.jobs[c].conversation) {
      OpenStays(setup, s, step, s.jobs[c].conversation);
    } else {
      var id :| Grants(s, id, c);
      RepliesStay(setup, s, step, id);
      assert Grants(n, id, c);
    }
  }

  lemma StepKeepsRequest(setup: Setup, s: State, step: Step, id: string)
    requires Inv(setup, s) && Enabled(s, step)
    ensures RequestAt(Next(setup, s, step), id)
  {
    assert RequestAt(s, id);
    if step.DeclineAll? { DeclinesItsOwn(s.board, step.conversation, id); }
  }

  /** The call that takes a step of its own. */
  lemma OwnStepKeepsCall(setup: Setup, s: State, step: Step, c: Call)
    requires Inv(setup, s) && Enabled(s, step) && !step.Answer? && !step.DeclineAll? && step.call == c
    ensures CallAt(setup, Next(setup, s, step), c)
  {
    var n := Next(setup, s, step);
    if !step.Enter? { assert CallAt(setup, s, c); }
    match step
    case Look(_) => if s.jobs[c].conversation in s.allowed { OpenStays(setup, s, step, s.jobs[c].conversation); }
    case Receive(_) =>
      var id := s.calls[c].id;
      RepliesStay(setup, s, step, id);
      if !s.board.replies[id].Decline? { assert Grants(n, id, c); }
    case Allow(_) =>
      RepliesStay(setup, s, step, s.calls[c].id);
      assert Opens(n, s.calls[c].id, s.jobs[c].conversation);
    case Run(_) => if setup.asks(s.jobs[c].conversation) { AgreedStays(setup, s, step, c); }
    case _ =>
  }

  lemma StepKeepsCall(setup: Setup, s: State, step: Step, c: Call)
    requires Inv(setup, s) && Enabled(s, step) && c in Next(setup, s, step).calls
    ensures CallAt(setup, Next(setup, s, step), c)
  {
    if !step.Answer? && !step.DeclineAll? && step.call == c {
      OwnStepKeepsCall(setup, s, step, c);
    } else {
      assert CallAt(setup, s, c);
      if s.calls[c].Allowing? { RepliesStay(setup, s, step, s.calls[c].id); }
      if Agreed(s, c) { AgreedStays(setup, s, step, c); }
    }
  }

  lemma StepKeepsInv(setup: Setup, s: State, step: Step)
    requires Inv(setup, s) && Enabled(s, step)
    ensures Inv(setup, Next(setup, s, step))
  {
    var n := Next(setup, s, step);
    forall c | c in n.calls ensures CallAt(setup, n, c) { StepKeepsCall(setup, s, step, c); }
    forall id ensures RequestAt(n, id) { StepKeepsRequest(setup, s, step, id); }
    forall v | v in n.allowed ensures Open(n, v) {
      if v in s.allowed {
        OpenStays(setup, s, step, v);
      } else {
        assert CallAt(setup, s, step.call);
        RepliesStay(setup, s, step, s.calls[step.call].id);
        assert Opens(n, s.calls[step.call].id, v);
      }
    }
  }

  // ----- runs -----

  datatype Run = Begin | Then(before: Run, step: Step)

  ghost function After(setup: Setup, r: Run): State
    requires Legal(setup, r)
    decreases r, 1
  {
    match r
    case Begin => START
    case Then(before, step) => Next(setup, After(setup, before), step)
  }

  ghost predicate Legal(setup: Setup, r: Run)
    decreases r, 0
  {
    r.Then? ==> Legal(setup, r.before) && Enabled(After(setup, r.before), r.step)
  }

  lemma {:induction false} EveryRunKeepsInv(setup: Setup, r: Run)
    requires Legal(setup, r)
    ensures Inv(setup, After(setup, r))
  {
    if r.Then? {
      EveryRunKeepsInv(setup, r.before);
      StepKeepsInv(setup, After(setup, r.before), r.step);
    }
  }

  /**
   * In a conversation that asks, a statement is read or analyzed only after the reading check has accepted it, and
   * after the person granted this very request or had allowed reads in the same conversation.
   */
  lemma NothingRunsUnapproved(setup: Setup, r: Run, c: Call)
    requires Legal(setup, r) && c in After(setup, r).calls && After(setup, r).calls[c].Ran?
    ensures var s := After(setup, r);
      c in s.jobs && setup.accepts(s.jobs[c].sql) && !s.jobs[c].tool.ExplainOnly?
      && (setup.asks(s.jobs[c].conversation) ==>
            (exists id :: Grants(s, id, c)) || (exists id :: Opens(s, id, s.jobs[c].conversation)))
  {
    EveryRunKeepsInv(setup, r);
    assert CallAt(setup, After(setup, r), c);
  }

  predicate Extends(later: Run, r: Run)
    decreases later
  {
    later == r || (later.Then? && Extends(later.before, r))
  }

  /** Every request is resolved at most once: an answer that has been sent is never replaced. */
  lemma {:induction false} ResolvedOnce(setup: Setup, r: Run, later: Run, id: string)
    requires Legal(setup, later) && Extends(later, r)
    ensures Legal(setup, r)
    ensures id in After(setup, r).board.replies ==>
      id in After(setup, later).board.replies
        && After(setup, later).board.replies[id] == After(setup, r).board.replies[id]
    decreases later
  {
    if later != r {
      ResolvedOnce(setup, r, later.before, id);
      EveryRunKeepsInv(setup, later.before);
      if id in After(setup, later.before).board.replies {
        RepliesStay(setup, After(setup, later.before), later.step, id);
      }
    }
  }

  /**
   * `decline_all` resolves every request that waits in the conversation then, so those who wait get their answer, and
   * no other.
   */
  lemma DeclineAllAnswersAllWaiting(setup: Setup, r: Run, conversation: string, c: Call)
    requires Legal(setup, r) && c in After(setup, r).calls && After(setup, r).calls[c].Waiting?
    ensures var s := After(setup, r);
      var n := Next(setup, s, DeclineAll(conversation));
      var id := s.calls[c].id;
      && (id in s.board.pending || id in s.board.replies ==> id in s.about)
      && (id in s.board.pending && id in s.about && s.about[id] == conversation ==>
        id in n.board.replies && n.board.replies[id].Decline?)
      && (id in s.about && s.about[id] != conversation ==>
        (id in n.board.pending <==> id in s.board.pending) && (id in n.board.replies <==> id in s.board.replies))
  {
    EveryRunKeepsInv(setup, r);
    var s := After(setup, r);
    assert RequestAt(s, s.calls[c].id);
    DeclinesItsOwn(s.board, conversation, s.calls[c].id);
  }

  // ----- nobody is turned down without a cause -----

  /** The step was taken in the run. */
  predicate Took(r: Run, step: Step)
    decreases r
  {
    r.Then? && (r.step == step || Took(r.before, step))
  }

  predicate Declines(s: State, id: string, c: Call) {
    id in s.board.replies && s.board.replies[id].Decline? && id in s.asker && s.asker[id] == c
  }

  /** The reading check, the options of the conversation, the database or the person turned the call down. */
  ghost predicate HasCause(setup: Setup, r: Run, c: Call)
    requires Legal(setup, r)
  {
    var s := After(setup, r);
    && c in s.jobs
    && (Took(r, NoReader(c))
        || (!s.jobs[c].tool.ExplainOnly? && !setup.accepts(s.jobs[c].sql))
        || (s.jobs[c].tool.ExplainAnalyze? && setup.schemaOnly(s.jobs[c].conversation))
        || exists id :: Declines(s, id, c))
  }

  lemma DeclinesStays(setup: Setup, s: State, step: Step, id: string, c: Call)
    requires Inv(setup, s) && Enabled(s, step) && Declines(s, id, c)
    ensures Declines(Next(setup, s, step), id, c)
  {
    RepliesStay(setup, s, step, id);
  }

  /** What a call does stays what it was when the call came in. */
  lemma JobStays(setup: Setup, s: State, step: Step, c: Call)
    requires Inv(setup, s) && Enabled(s, step) && c in s.calls
    ensures var n := Next(setup, s, step);
      c in s.jobs && c in n.calls && c in n.jobs && n.jobs[c] == s.jobs[c]
  {
    assert CallAt(setup, s, c);
  }

  lemma {:induction false} CauseStays(setup: Setup, r: Run, c: Call)
    requires Legal(setup, r) && r.Then? && c in After(setup, r.before).calls && HasCause(setup, r.before, c)
    ensures HasCause(setup, r, c)
  {
    var s := After(setup, r.before);
    EveryRunKeepsInv(setup, r.before);
    JobStays(setup, s, r.step, c);
    if id :| Declines(s, id, c) { DeclinesStays(setup, s, r.step, id, c); }
  }

  /** A call that is turned down right now. */
  lemma {:induction false} CauseNow(setup: Setup, r: Run, c: Call)
    requires Legal(setup, r) && r.Then? && c in After(setup, r).calls && After(setup, r).calls[c].Refused?
    requires c in After(setup, r.before).calls ==> !After(setup, r.before).calls[c].Refused?
    ensures HasCause(setup, r, c)
  {
    var s := After(setup, r.before);
    EveryRunKeepsInv(setup, r.before);
    if c in s.calls { JobStays(setup, s, r.step, c); }
    if r.step.Receive? {
      var id := s.calls[c].id;
      assert CallAt(setup, s, c);
      assert Declines(After(setup, r), id, c);
    }
  }

  /**
   * In every run a call is turned down only because the reading check did not accept its statement, because it would
   * analyze in a conversation that shows the schema only, because the database cannot be read, or because its own
   * request was declined.
   */
  lemma {:induction false} RefusedForACause(setup: Setup, r: Run, c: Call)
    requires Legal(setup, r) && c in After(setup, r).calls && After(setup, r).calls[c].Refused?
    ensures HasCause(setup, r, c)
    decreases r
  {
    if c in After(setup, r.before).calls && After(setup, r.before).calls[c].Refused? {
      RefusedForACause(setup, r.before, c);
      CauseStays(setup, r, c);
    } else {
      CauseNow(setup, r, c);
    }
  }

  // ----- what the person allows goes ahead -----

  predicate PastGate(p: Phase) { p.Allowing? || p.Granted? || p.Ran? }

  lemma PastGateStays(setup: Setup, s: State, step: Step, c: Call)
    requires Enabled(s, step) && c in s.calls && PastGate(s.calls[c]) && Inv(setup, s)
    ensures c in Next(setup, s, step).calls && PastGate(Next(setup, s, step).calls[c])
  {}

  /** The call received an answer in the run. */
  ghost predicate Received(setup: Setup, r: Run, c: Call, d: Decision)
    requires Legal(setup, r)
  {
    r.Then? && r.step == Receive(c) &&
    var s := After(setup, r.before);
    s.board.replies[s.calls[c].id] == d
  }

  /** In every continuation a call that received another answer than Decline is past the gate. */
  lemma {:induction false} AllowedGoesAhead(setup: Setup, r: Run, later: Run, c: Call, d: Decision)
    requires Legal(setup, later) && Extends(later, r) && Legal(setup, r) && Received(setup, r, c, d)
    requires !d.Decline?
    ensures c in After(setup, later).calls && PastGate(After(setup, later).calls[c])
    decreases later
  {
    if later != r {
      EveryRunKeepsInv(setup, later.before);
      AllowedGoesAhead(setup, r, later.before, c, d);
      PastGateStays(setup, After(setup, later.before), later.step, c);
    }
  }

  lemma {:induction false} ExtendsIsLegal(setup: Setup, r: Run, later: Run)
    requires Legal(setup, later) && Extends(later, r)
    ensures Legal(setup, r)
    decreases later
  {
    if later != r { ExtendsIsLegal(setup, r, later.before); }
  }

  lemma AllowedStays(setup: Setup, s: State, step: Step, conversation: string)
    requires Enabled(s, step) && conversation in s.allowed
    ensures conversation in Next(setup, s, step).allowed
  {}

  /** Once a call that was answered with ReadsInChat may run, reads are allowed in its conversation from then on. */
  lemma {:induction false} ReadsAreAllowed(setup: Setup, r: Run, later: Run, c: Call)
    requires Legal(setup, later) && Extends(later, r) && Legal(setup, r) && Received(setup, r, c, ReadsInChat)
    ensures var s := After(setup, later);
      c in s.calls && c in s.jobs
        && (s.calls[c].Allowing? || ((s.calls[c].Granted? || s.calls[c].Ran?) && s.jobs[c].conversation in s.allowed))
    decreases later
  {
    if later == r {
      EveryRunKeepsInv(setup, r.before);
      JobStays(setup, After(setup, r.before), r.step, c);
    } else {
      var s := After(setup, later.before);
      EveryRunKeepsInv(setup, later.before);
      ReadsAreAllowed(setup, r, later.before, c);
      JobStays(setup, s, later.step, c);
    }
  }

  /** A phase of a call that has not been asked about. */
  predicate Unasked(p: Phase) { !p.MustAsk? && !p.Waiting? && !p.Allowing? && !p.Abandoned? }

  lemma UnaskedStays(setup: Setup, s: State, step: Step, c: Call)
    requires Inv(setup, s) && Enabled(s, step) && c in Next(setup, s, step).calls && c in Next(setup, s, step).jobs
    requires c in s.calls ==> Unasked(s.calls[c])
    requires var v := Next(setup, s, step).jobs[c].conversation; v in s.allowed || !setup.asks(v)
    ensures Unasked(Next(setup, s, step).calls[c])
  {
    if c in s.calls { JobStays(setup, s, step, c); }
  }

  /**
   * When reads have been allowed in a conversation, no call that comes in later has to ask there, in any continuation.
   */
  lemma {:induction false} NotAskedAgain(setup: Setup, r: Run, later: Run, c: Call)
    requires Legal(setup, later) && Extends(later, r) && Legal(setup, r)
    requires c !in After(setup, r).calls && c in After(setup, later).calls
    ensures var s := After(setup, later);
      c in s.jobs && (s.jobs[c].conversation in After(setup, r).allowed ==>
        s.jobs[c].conversation in s.allowed && Unasked(s.calls[c]))
    decreases later
  {
    EveryRunKeepsInv(setup, later);
    assert CallAt(setup, After(setup, later), c);
    if later != r {
      ExtendsIsLegal(setup, r, later.before);
      EveryRunKeepsInv(setup, later.before);
      var s := After(setup, later.before);
      var v := After(setup, later).jobs[c].conversation;
      StaysAllowed(setup, r, later.before, v);
      if c in s.calls {
        NotAskedAgain(setup, r, later.before, c);
        JobStays(setup, s, later.step, c);
      }
      if v in After(setup, r).allowed {
        UnaskedStays(setup, s, later.step, c);
        AllowedStays(setup, s, later.step, v);
      }
    }
  }

  lemma {:induction false} StaysAllowed(setup: Setup, r: Run, later: Run, conversation: string)
    requires Legal(setup, later) && Extends(later, r) && Legal(setup, r)
    ensures conversation in After(setup, r).allowed ==> conversation in After(setup, later).allowed
    decreases later
  {
    if later != r {
      StaysAllowed(setup, r, later.before, conversation);
      if conversation in After(setup, r).allowed {
        AllowedStays(setup, After(setup, later.before), later.step, conversation);
      }
    }
  }

  /** In a conversation that does not ask, no call ever has to. */
  lemma {:induction false} NeverAsked(setup: Setup, r: Run, c: Call)
    requires Legal(setup, r) && c in After(setup, r).calls
    ensures c in After(setup, r).jobs
    ensures !setup.asks(After(setup, r).jobs[c].conversation) ==> Unasked(After(setup, r).calls[c])
    decreases r
  {
    EveryRunKeepsInv(setup, r);
    assert CallAt(setup, After(setup, r), c);
    EveryRunKeepsInv(setup, r.before);
    var s := After(setup, r.before);
    if c in s.calls {
      NeverAsked(setup, r.before, c);
      JobStays(setup, s, r.step, c);
    }
    if !setup.asks(After(setup, r).jobs[c].conversation) { UnaskedStays(setup, s, r.step, c); }
  }

  function AfterAnswer(id: string, d: Decision): Phase {
    if d.Once? then Granted else if d.ReadsInChat? then Allowing(id) else Refused
  }

  lemma {:induction false} AnswerThenReceive(setup: Setup, s: State, c: Call, id: string, d: Decision)
    requires c in s.calls && s.calls[c] == Waiting(id) && id in s.board.pending
    ensures var n := Next(setup, s, Answer(id, d));
      Enabled(n, Receive(c)) && Next(setup, n, Receive(c)).calls[c] == AfterAnswer(id, d)
  {
    var n := Next(setup, s, Answer(id, d));
    assert id in n.board.replies && n.board.replies[id] == d;
  }

  /**
   * A call that waits has its request registered or answered. Answered with Once it may run, with ReadsInChat it has to
   * store that first, with Decline it is turned down.
   */
  lemma {:induction false} AnswerIsReceived(setup: Setup, r: Run, c: Call, d: Decision)
    requires Legal(setup, r) && c in After(setup, r).calls && After(setup, r).calls[c].Waiting?
    ensures var s := After(setup, r);
      var id := s.calls[c].id;
      && (id in s.board.pending || id in s.board.replies)
      && (id in s.board.pending ==>
        var n := Next(setup, s, Answer(id, d));
        Enabled(n, Receive(c)) && Next(setup, n, Receive(c)).calls[c] == AfterAnswer(id, d))
  {
    EveryRunKeepsInv(setup, r);
    var s := After(setup, r);
    assert CallAt(setup, s, c);
    if s.calls[c].id in s.board.pending { AnswerThenReceive(setup, s, c, s.calls[c].id, d); }
  }
}

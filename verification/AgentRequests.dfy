/**
 * Requests to the agent and the task that reads its answers. `Shared` has the atomic sections of the source;
 * the protocol is every interleaving of those of any number of requests with those of the reader.
 */
module AgentRequests {
  import opened Text

  /** A response of the agent: the id it carries, and what it says. */
  datatype Message = Message(id: nat, content: string)

  datatype Outcome = Answer(message: Message) | Stopped

  type Call = nat

  /** What requests and reader share: who waits under which id, whether the agent is gone, the next id. */
  datatype Board = Board(pending: map<nat, Call>, stopped: bool, nextId: nat)

  function Inserted(b: Board, id: nat, call: Call): Board { b.(pending := b.pending[id := call]) }

  function Removed(b: Board, id: nat): Board { b.(pending := b.pending - {id}) }

  function Counted(b: Board): Board { b.(nextId := b.nextId + 1) }

  function Halted(b: Board): Board { b.(stopped := true) }

  function Emptied(b: Board): Board { b.(pending := map[]) }

  class Shared {
    var pending: map<nat, Call>
    var stopped: bool
    var nextId: nat

    constructor ()
      ensures View() == Board(map[], false, 1)
    {
      pending, stopped, nextId := map[], false, 1;
    }

    function View(): Board
      reads this
    {
      Board(pending, stopped, nextId)
    }

    method FetchId() returns (id: nat)
      modifies this`nextId
      ensures id == old(nextId) && View() == Counted(old(View()))
    {
      id := nextId;
      nextId := nextId + 1;
    }

    method Insert(id: nat, call: Call)
      modifies this`pending
      ensures View() == Inserted(old(View()), id, call)
    {
      pending := pending[id := call];
    }

    /** Takes what waits under an id. */
    method Remove(id: nat) returns (call: Option<Call>)
      modifies this`pending
      ensures View() == Removed(old(View()), id)
      ensures call == if id in old(pending) then Some(old(pending)[id]) else None
    {
      call := if id in pending then Some(pending[id]) else None;
      pending := pending - {id};
    }

    method Stop()
      modifies this`stopped
      ensures View() == Halted(old(View()))
    {
      stopped := true;
    }

    method Drain() returns (waiting: set<nat>)
      modifies this`pending
      ensures View() == Emptied(old(View())) && waiting == old(pending).Keys
    {
      waiting := pending.Keys;
      pending := map[];
    }
  }

  // ----- the protocol -----

  /** How far a request has come. */
  datatype Phase =
    | Entered
    | Checked                  // the agent was not gone
    | Numbered(id: nat)
    | Registered(id: nat)      // its sender is in the map
    | Unwanted(id: nat)        // the agent was gone after all
    | Writing(id: nat)
    | Failed(id: nat)          // the write failed
    | Waiting(id: nat)         // parked on its answer
    | Abandoned(id: nat)       // given up by its caller, as by the timeout of the first request
    | Returned(own: Option<nat>, outcome: Outcome)

  datatype Reader =
    | Listening
    | Holding(message: Message)     // has taken the sender that the message is for
    | Leaving                       // has set the flag
    | Sending(waiting: set<nat>)    // has drained the map
    | Gone

  datatype State = State(board: Board, calls: map<Call, Phase>, reader: Reader, sent: map<nat, Outcome>)

  const START := State(Board(map[], false, 1), map[], Listening, map[])

  datatype Step =
    | Enter(call: Call)
    | Check(call: Call)
    | TakeId(call: Call)
    | Register(call: Call)
    | CheckAgain(call: Call)
    | Write(call: Call, ok: bool)
    | Withdraw(call: Call)
    | Receive(call: Call)
    | Abandon(call: Call)
    | Hear(message: Message)
    | Send
    | SetStopped
    | DrainPending
    | SendStopped(id: nat)
    | Leave

  predicate Enabled(s: State, step: Step) {
    match step
    case Enter(c) => c !in s.calls
    case Check(c) => c in s.calls && s.calls[c].Entered?
    case TakeId(c) => c in s.calls && s.calls[c].Checked?
    case Register(c) => c in s.calls && s.calls[c].Numbered?
    case CheckAgain(c) => c in s.calls && s.calls[c].Registered?
    case Write(c, _) => c in s.calls && s.calls[c].Writing?
    case Withdraw(c) => c in s.calls && (s.calls[c].Unwanted? || s.calls[c].Failed?)
    case Receive(c) => c in s.calls && s.calls[c].Waiting? && s.calls[c].id in s.sent
    case Abandon(c) => c in s.calls && (s.calls[c].Writing? || s.calls[c].Waiting?)
    case Hear(_) => s.reader.Listening?
    case Send => s.reader.Holding?
    case SetStopped => s.reader.Listening?
    case DrainPending => s.reader.Leaving?
    case SendStopped(id) => s.reader.Sending? && id in s.reader.waiting
    case Leave => s.reader == Sending({})
  }

  function Goes(s: State, c: Call, phase: Phase): State { s.(calls := s.calls[c := phase]) }

  function Next(s: State, step: Step): State
    requires Enabled(s, step)
  {
    match step
    case Enter(c) => Goes(s, c, Entered)
    case Check(c) => Goes(s, c, if s.board.stopped then Returned(None, Stopped) else Checked)
    case TakeId(c) => Goes(s, c, Numbered(s.board.nextId)).(board := Counted(s.board))
    case Register(c) => Goes(s, c, Registered(s.calls[c].id)).(board := Inserted(s.board, s.calls[c].id, c))
    case CheckAgain(c) => Goes(s, c, if s.board.stopped then Unwanted(s.calls[c].id) else Writing(s.calls[c].id))
    case Write(c, ok) => Goes(s, c, if ok then Waiting(s.calls[c].id) else Failed(s.calls[c].id))
    case Withdraw(c) => Goes(s, c, Returned(Some(s.calls[c].id), Stopped)).(board := Removed(s.board, s.calls[c].id))
    case Receive(c) => Goes(s, c, Returned(Some(s.calls[c].id), s.sent[s.calls[c].id]))
    case Abandon(c) => Goes(s, c, Abandoned(s.calls[c].id))
    case Hear(m) => if m.id in s.board.pending then s.(reader := Holding(m), board := Removed(s.board, m.id)) else s
    case Send => s.(reader := Listening, sent := s.sent[s.reader.message.id := Answer(s.reader.message)])
    case SetStopped => s.(reader := Leaving, board := Halted(s.board))
    case DrainPending => s.(reader := Sending(s.board.pending.Keys), board := Emptied(s.board))
    case SendStopped(id) => s.(reader := Sending(s.reader.waiting - {id}), sent := s.sent[id := Stopped])
    case Leave => s.(reader := Gone)
  }

  // ----- what every run keeps -----

  function IdOf(p: Phase): Option<nat> {
    match p
    case Entered => None
    case Checked => None
    case Returned(own, _) => own
    case _ => Some(p.id)
  }

  /** A request whose sender has been put into the map and that still looks for its answer (or was abandoned). */
  predicate HasSender(p: Phase) {
    p.Registered? || p.Unwanted? || p.Writing? || p.Failed? || p.Waiting? || p.Abandoned?
  }

  /** The senders that the reader has taken out of the map and not used yet. */
  function Held(r: Reader): set<nat> {
    match r
    case Holding(m) => {m.id}
    case Sending(waiting) => waiting
    case _ => {}
  }

  predicate Drained(r: Reader) { r.Sending? || r.Gone? }

  ghost predicate PendingAt(s: State, id: nat)
    requires id in s.board.pending
  {
    var c := s.board.pending[id];
    && c in s.calls && HasSender(s.calls[c]) && IdOf(s.calls[c]) == Some(id)
    && (Drained(s.reader) ==> s.calls[c].Registered? || s.calls[c].Unwanted?)
  }

  /** Where the sender of a request is. */
  ghost predicate CallAt(s: State, c: Call)
    requires c in s.calls
  {
    var p := s.calls[c];
    && (IdOf(p).Some? ==> IdOf(p).value < s.board.nextId)
    && (HasSender(p) ==>
      (p.id in s.board.pending && s.board.pending[p.id] == c) || p.id in Held(s.reader) || p.id in s.sent)
    && (p.Numbered? ==> p.id !in s.board.pending && p.id !in Held(s.reader) && p.id !in s.sent)
    && (p.Returned? && p.outcome.Answer? ==> p.own == Some(p.outcome.message.id))
  }

  ghost predicate OwnIds(s: State, c: Call, d: Call)
    requires c in s.calls && d in s.calls
  {
    c != d && IdOf(s.calls[c]).Some? ==> IdOf(s.calls[c]) != IdOf(s.calls[d])
  }

  ghost predicate SentAt(s: State, id: nat)
    requires id in s.sent
  {
    id < s.board.nextId && id !in s.board.pending && (s.sent[id].Answer? ==> s.sent[id].message.id == id)
  }

  ghost predicate HeldAt(s: State, id: nat) { id < s.board.nextId && id !in s.board.pending && id !in s.sent }

  ghost predicate Inv(s: State) {
    && (forall id {:trigger PendingAt(s, id)} :: id in s.board.pending ==> PendingAt(s, id))
    && (forall c {:trigger CallAt(s, c)} :: c in s.calls ==> CallAt(s, c))
    && (forall c, d {:trigger OwnIds(s, c, d)} :: c in s.calls && d in s.calls ==> OwnIds(s, c, d))
    && (forall id {:trigger SentAt(s, id)} :: id in s.sent ==> SentAt(s, id))
    && (forall id {:trigger HeldAt(s, id)} :: id in Held(s.reader) ==> HeldAt(s, id))
    && (s.board.stopped <==> s.reader.Leaving? || Drained(s.reader))
  }

  /** What holds of an id. */
  lemma AboutId(s: State, id: nat)
    requires Inv(s)
    ensures id in s.board.pending ==> PendingAt(s, id) && id < s.board.nextId
    ensures id in s.sent ==> SentAt(s, id)
    ensures id in Held(s.reader) ==> HeldAt(s, id)
  {
    if id in s.board.pending { assert PendingAt(s, id) && CallAt(s, s.board.pending[id]); }
    assert id in s.sent ==> SentAt(s, id);
    assert id in Held(s.reader) ==> HeldAt(s, id);
  }

  predicate IsOwn(step: Step) {
    step.Check? || step.TakeId? || step.Register? || step.CheckAgain? || step.Write? || step.Withdraw? || step.Receive?
      || step.Abandon?
  }

  /** What holds of a request and the one that takes a step. */
  lemma AboutCall(s: State, step: Step, c: Call)
    requires Inv(s) && Enabled(s, step) && c in s.calls
    ensures CallAt(s, c)
    ensures (IdOf(s.calls[c]).Some? ==> var id := IdOf(s.calls[c]).value; (id in s.sent ==> id !in s.board.pending))
    ensures IsOwn(step) ==> CallAt(s, step.call) && OwnIds(s, c, step.call)
  {
    assert CallAt(s, c);
    if IsOwn(step) { assert CallAt(s, step.call) && OwnIds(s, c, step.call); }
    if IdOf(s.calls[c]).Some? { AboutId(s, IdOf(s.calls[c]).value); }
  }

  lemma StepKeepsPending(s: State, step: Step, id: nat)
    requires Inv(s) && Enabled(s, step) && id in Next(s, step).board.pending
    ensures PendingAt(Next(s, step), id)
  {
    AboutId(s, id);
    if id in s.board.pending { AboutCall(s, step, s.board.pending[id]); }
  }

  lemma StepKeepsCall(s: State, step: Step, c: Call)
    requires Inv(s) && Enabled(s, step) && c in Next(s, step).calls
    ensures CallAt(Next(s, step), c)
  {
    AboutId(s, s.board.nextId);
    if c in s.calls {
      AboutCall(s, step, c);
      if IdOf(s.calls[c]).Some? { AboutId(s, IdOf(s.calls[c]).value); }
    }
  }

  lemma StepKeepsOwnIds(s: State, step: Step, c: Call, d: Call)
    requires Inv(s) && Enabled(s, step) && c in Next(s, step).calls && d in Next(s, step).calls
    ensures OwnIds(Next(s, step), c, d)
  {
    if c in s.calls && d in s.calls { assert OwnIds(s, c, d) && CallAt(s, c) && CallAt(s, d); }
  }

  lemma StepKeepsSent(s: State, step: Step, id: nat)
    requires Inv(s) && Enabled(s, step)
    ensures id in Next(s, step).sent ==> SentAt(Next(s, step), id)
    ensures id in Held(Next(s, step).reader) ==> HeldAt(Next(s, step), id)
  {
    AboutId(s, id);
    if IsOwn(step) {
      AboutCall(s, step, step.call);
    }
  }

  lemma StepKeepsInv(s: State, step: Step)
    requires Inv(s) && Enabled(s, step)
    ensures Inv(Next(s, step))
  {
    var t := Next(s, step);
    forall id | id in t.board.pending ensures PendingAt(t, id) { StepKeepsPending(s, step, id); }
    forall c | c in t.calls ensures CallAt(t, c) { StepKeepsCall(s, step, c); }
    forall c, d | c in t.calls && d in t.calls ensures OwnIds(t, c, d) { StepKeepsOwnIds(s, step, c, d); }
    forall id | id in t.sent ensures SentAt(t, id) { StepKeepsSent(s, step, id); }
    forall id | id in Held(t.reader) ensures HeldAt(t, id) { StepKeepsSent(s, step, id); }
  }

  // ----- runs -----

  /** A run: steps one after another, each enabled when it is taken. */
  datatype Run = Begin | Then(before: Run, step: Step)

  ghost function After(r: Run): State
    requires Legal(r)
    decreases r, 1
  {
    match r
    case Begin => START
    case Then(before, step) => Next(After(before), step)
  }

  ghost predicate Legal(r: Run)
    decreases r, 0
  {
    r.Then? ==> Legal(r.before) && Enabled(After(r.before), r.step)
  }

  lemma {:induction false} EveryRunKeepsInv(r: Run)
    requires Legal(r)
    ensures Inv(After(r))
  {
    if r.Then? {
      EveryRunKeepsInv(r.before);
      StepKeepsInv(After(r.before), r.step);
    }
  }

  /**
   * Once `agent_left` has drained the map, an id left in it belongs to a request that has not made its second
   * check yet, or has and is about to withdraw: none is being written or parked on its answer.
   */
  lemma NoneParkedAfterDrain(r: Run, id: nat)
    requires Legal(r) && Drained(After(r).reader) && id in After(r).board.pending
    ensures var s := After(r);
      && s.board.pending[id] in s.calls && s.board.stopped
      && (s.calls[s.board.pending[id]] == Registered(id) || s.calls[s.board.pending[id]] == Unwanted(id))
  {
    EveryRunKeepsInv(r);
    assert PendingAt(After(r), id);
  }

  /** The next step that a request can take by itself, if it has one. */
  function OwnStep(s: State, c: Call, ok: bool): Option<Step>
    requires c in s.calls
  {
    match s.calls[c]
    case Entered => Some(Check(c))
    case Checked => Some(TakeId(c))
    case Numbered(_) => Some(Register(c))
    case Registered(_) => Some(CheckAgain(c))
    case Unwanted(_) => Some(Withdraw(c))
    case Failed(_) => Some(Withdraw(c))
    case Writing(_) => Some(Write(c, ok))
    case Waiting(_) => Some(Receive(c))
    case _ => None
  }

  function Left(p: Phase): nat {
    match p
    case Entered => 6
    case Checked => 5
    case Numbered(_) => 4
    case Registered(_) => 3
    case Writing(_) => 2
    case Unwanted(_) => 1
    case Failed(_) => 1
    case Waiting(_) => 1
    case _ => 0
  }

  /**
   * Once the agent has gone no request is left behind: each that has not returned or been abandoned can take its
   * next step, one that is parked because its answer is there, and comes closer to its return by it.
   */
  lemma NoneLeftBehind(r: Run, c: Call, ok: bool)
    requires Legal(r) && After(r).reader.Gone? && c in After(r).calls
    requires !After(r).calls[c].Returned? && !After(r).calls[c].Abandoned?
    ensures var s := After(r);
      OwnStep(s, c, ok).Some? && Enabled(s, OwnStep(s, c, ok).value)
        && Left(Next(s, OwnStep(s, c, ok).value).calls[c]) < Left(s.calls[c])
  {
    EveryRunKeepsInv(r);
    assert CallAt(After(r), c);
    if After(r).calls[c].Waiting? && After(r).calls[c].id in After(r).board.pending {
      NoneParkedAfterDrain(r, After(r).calls[c].id);
    }
  }

  /** A request gets an answer only if that carries its own id; ids are never used twice. */
  lemma AnswersAreForTheirRequests(r: Run, c: Call, d: Call)
    requires Legal(r) && c in After(r).calls && d in After(r).calls && c != d
    ensures var s := After(r);
      s.calls[c].Returned? && s.calls[c].outcome.Answer? ==> s.calls[c].own == Some(s.calls[c].outcome.message.id)
    ensures var s := After(r); IdOf(s.calls[c]).Some? ==> IdOf(s.calls[c]) != IdOf(s.calls[d])
  {
    EveryRunKeepsInv(r);
    assert CallAt(After(r), c) && OwnIds(After(r), c, d);
  }

  /** What has been sent for an id or returned by a request stays: each is resolved at most once. */
  lemma {:induction false} ResolvedOnce(r: Run, later: Run, id: nat, c: Call)
    requires Legal(later) && Extends(later, r)
    ensures Legal(r)
    ensures id in After(r).sent ==> id in After(later).sent && After(later).sent[id] == After(r).sent[id]
    ensures c in After(r).calls && After(r).calls[c].Returned? ==>
      c in After(later).calls && After(later).calls[c] == After(r).calls[c]
    decreases later
  {
    if later != r {
      ResolvedOnce(r, later.before, id, c);
      EveryRunKeepsInv(later.before);
      SentStays(After(later.before), later.step, id);
    }
  }

  /** `later` goes on from `r`. */
  ghost predicate Extends(later: Run, r: Run)
    decreases later
  {
    later == r || (later.Then? && Extends(later.before, r))
  }

  lemma SentStays(s: State, step: Step, id: nat)
    requires Inv(s) && Enabled(s, step)
    ensures id in s.sent ==> id in Next(s, step).sent && Next(s, step).sent[id] == s.sent[id]
  {
    AboutId(s, id);
  }

  // ----- nothing fails without a cause -----

  /** The step was taken in the run. */
  predicate Took(r: Run, step: Step)
    decreases r
  {
    r.Then? && (r.step == step || Took(r.before, step))
  }

  /** A request that has failed or is about to, and an answer that says so. */
  ghost predicate FailureAt(r: Run, c: Call)
    requires Legal(r)
  {
    var s := After(r);
    c in s.calls ==>
      var p := s.calls[c];
      && (p.Unwanted? ==> s.board.stopped)
      && (p.Failed? ==> Took(r, Write(c, false)))
      && (p.Returned? && p.outcome.Stopped? ==> s.board.stopped || Took(r, Write(c, false)))
  }

  ghost predicate StoppedAt(s: State, id: nat) { id in s.sent && s.sent[id].Stopped? ==> s.board.stopped }

  ghost predicate Failures(r: Run)
    requires Legal(r)
  {
    (forall c {:trigger FailureAt(r, c)} :: FailureAt(r, c))
      && (forall id {:trigger StoppedAt(After(r), id)} :: StoppedAt(After(r), id))
  }

  lemma {:induction false} StepKeepsFailures(r: Run, c: Call, id: nat)
    requires Legal(r) && r.Then? && Failures(r.before) && Inv(After(r.before))
    ensures FailureAt(r, c) && StoppedAt(After(r), id)
  {
    var s := After(r.before);
    assert FailureAt(r.before, c) && StoppedAt(s, id);
    if r.step.Receive? { assert StoppedAt(s, s.calls[r.step.call].id); }
  }

  lemma {:induction false} EveryRunKeepsFailures(r: Run)
    requires Legal(r)
    ensures Failures(r)
  {
    if r.Then? {
      EveryRunKeepsFailures(r.before);
      EveryRunKeepsInv(r.before);
      forall c ensures FailureAt(r, c) { StepKeepsFailures(r, c, 0); }
      forall id ensures StoppedAt(After(r), id) { StepKeepsFailures(r, 0, id); }
    }
  }

  /** In every run a request fails only because the agent is gone or its own message could not be written. */
  lemma FailsForACause(r: Run, c: Call)
    requires Legal(r) && c in After(r).calls && After(r).calls[c].Returned? && After(r).calls[c].outcome.Stopped?
    ensures After(r).reader.Leaving? || Drained(After(r).reader) || Took(r, Write(c, false))
  {
    EveryRunKeepsFailures(r);
    EveryRunKeepsInv(r);
    assert FailureAt(r, c);
  }

  /** A request that is parked while the agent is there gets the first message with its id, word for word. */
  lemma {:induction false} AnswerArrives(r: Run, c: Call, m: Message)
    requires Legal(r) && c in After(r).calls && After(r).calls[c] == Waiting(m.id) && After(r).reader.Listening?
    ensures m.id in After(r).board.pending || m.id in After(r).sent
    ensures m.id in After(r).board.pending ==>
      var heard := Next(After(r), Hear(m));
      && Enabled(heard, Send) && Enabled(Next(heard, Send), Receive(c))
      && Next(Next(heard, Send), Receive(c)).calls[c] == Returned(Some(m.id), Answer(m))
  {
    EveryRunKeepsInv(r);
    assert CallAt(After(r), c);
  }
}

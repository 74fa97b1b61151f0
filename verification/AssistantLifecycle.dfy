/**
 * Starting and ending the agent and the tool server. `Assistant` has the atomic sections of the source; the protocol
 * is every interleaving of any number of `start` and `shutdown` calls (`restart` is one after the other).
 */
module AssistantLifecycle {
  import opened Text

  /** An agent or a tool server that was launched. */
  type Thing = nat

  datatype Pair = Pair(agent: Thing, tools: Thing)

  type Call = nat

  /** What the calls share, besides the lock that lets one start run at a time. */
  datatype Board = Board(running: Option<Pair>, shutdowns: nat)

  class Assistant {
    var running: Option<Pair>
    var shutdowns: nat

    constructor ()
      ensures View() == Board(None, 0)
    {
      running, shutdowns := None, 0;
    }

    function View(): Board
      reads this
    {
      Board(running, shutdowns)
    }

    /** The agent that runs, taken out; it stays when it is the one that is wanted, and is ready. */
    method Take(wanted: bool) returns (taken: Option<Pair>)
      modifies this`running
      ensures taken == Taken(old(View()), wanted) && View() == AfterTake(old(View()), wanted)
    {
      if running.Some? && wanted { return None; }
      taken := running;
      running := None;
    }

    /** Fills the slot, unless the counter has moved on since `read`. */
    method Settle(both: Pair, read: nat) returns (settled: bool)
      modifies this`running
      ensures settled == (old(shutdowns) == read) && View() == Settled(old(View()), both, read)
    {
      if shutdowns != read { return false; }
      running := Some(both);
      settled := true;
    }

    method Bump()
      modifies this`shutdowns
      ensures View() == CountedUp(old(View()))
    {
      shutdowns := shutdowns + 1;
    }
  }

  function Taken(b: Board, wanted: bool): Option<Pair> { if b.running.Some? && wanted then None else b.running }

  function AfterTake(b: Board, wanted: bool): Board { if b.running.Some? && wanted then b else b.(running := None) }

  function Settled(b: Board, both: Pair, read: nat): Board {
    if b.shutdowns == read then b.(running := Some(both)) else b
  }

  function CountedUp(b: Board): Board { b.(shutdowns := b.shutdowns + 1) }

  // ----- the protocol -----

  /** How far a call of `start` has come. */
  datatype Starting =
    | Queued                         // waits for the lock
    | Locked
    | Counted(read: nat)             // has read the counter
    | EndingAgent(read: nat, was: Pair)
    | EndingTools(read: nat, tools: Thing)
    | Preparing(read: nat)
    | HasTools(read: nat, tools: Thing)
    | HasBoth(read: nat, both: Pair)
    | DroppingAgent(read: nat, both: Pair)
    | DroppingTools(read: nat, tools: Thing)
    | Started(read: nat)             // has returned

  /** How far a call of `shutdown` has come. */
  datatype Ending =
    | Called
    | Bumped(count: nat)             // has made the counter `count`
    | StoppingAgent(count: nat, was: Pair)
    | StoppingTools(count: nat, tools: Thing)
    | Ended(count: nat)              // has returned

  datatype Place = InSlot | WithStart(call: Call) | WithShutdown(call: Call) | Down

  /**
   * `lock` is the start that runs; `place` and `owner` say of each thing launched where it is and which start
   * launched it.
   */
  datatype State = State(
    board: Board, lock: Option<Call>, starts: map<Call, Starting>, ends: map<Call, Ending>,
    place: map<Thing, Place>, owner: map<Thing, Call>)

  const START := State(Board(None, 0), None, map[], map[], map[], map[])

  datatype Step =
    | CallStart(call: Call)
    | Lock(call: Call)
    | ReadCounter(call: Call)
    | TakeRunning(call: Call, wanted: bool)
    | EndAgent(call: Call)
    | EndTools(call: Call)
    | Fail(call: Call)                   // no Node, no profile, no tool server
    | StartTools(call: Call, tools: Thing)
    | Launch(call: Call, agent: Thing)
    | LaunchFails(call: Call)
    | Settle(call: Call)
    | DropAgent(call: Call)
    | DropTools(call: Call)
    | CallShutdown(call: Call)
    | Bump(call: Call)
    | TakeOld(call: Call)
    | StopAgent(call: Call)
    | StopTools(call: Call)

  predicate Enabled(s: State, step: Step) {
    var c := step.call;
    match step
    case CallStart(_) => c !in s.starts
    case Lock(_) => c in s.starts && s.starts[c].Queued? && s.lock.None?
    case ReadCounter(_) => c in s.starts && s.starts[c].Locked?
    case TakeRunning(_, _) => c in s.starts && s.starts[c].Counted?
    case EndAgent(_) => c in s.starts && s.starts[c].EndingAgent?
    case EndTools(_) => c in s.starts && s.starts[c].EndingTools?
    case Fail(_) => c in s.starts && s.starts[c].Preparing?
    case StartTools(_, tools) => c in s.starts && s.starts[c].Preparing? && tools !in s.place
    case Launch(_, agent) => c in s.starts && s.starts[c].HasTools? && agent !in s.place
    case LaunchFails(_) => c in s.starts && s.starts[c].HasTools?
    case Settle(_) => c in s.starts && s.starts[c].HasBoth?
    case DropAgent(_) => c in s.starts && s.starts[c].DroppingAgent?
    case DropTools(_) => c in s.starts && s.starts[c].DroppingTools?
    case CallShutdown(_) => c !in s.ends
    case Bump(_) => c in s.ends && s.ends[c].Called?
    case TakeOld(_) => c in s.ends && s.ends[c].Bumped?
    case StopAgent(_) => c in s.ends && s.ends[c].StoppingAgent?
    case StopTools(_) => c in s.ends && s.ends[c].StoppingTools?
  }

  function Goes(s: State, c: Call, phase: Starting): State { s.(starts := s.starts[c := phase]) }

  function Returns(s: State, c: Call, read: nat): State { Goes(s, c, Started(read)).(lock := None) }

  function Stops(s: State, c: Call, phase: Ending): State { s.(ends := s.ends[c := phase]) }

  function Moves(s: State, pair: Pair, place: Place): State {
    s.(place := s.place[pair.agent := place][pair.tools := place])
  }

  function Downs(s: State, thing: Thing): State { s.(place := s.place[thing := Down]) }

  function Next(s: State, step: Step): State
    requires Enabled(s, step)
  {
    var c := step.call;
    match step
    case CallStart(_) => Goes(s, c, Queued)
    case Lock(_) => Goes(s, c, Locked).(lock := Some(c))
    case ReadCounter(_) => Goes(s, c, Counted(s.board.shutdowns))
    case TakeRunning(_, wanted) =>
      var read := s.starts[c].read;
      var t := s.(board := AfterTake(s.board, wanted));
      (match Taken(s.board, wanted)
       case Some(was) => Moves(Goes(t, c, EndingAgent(read, was)), was, WithStart(c))
       case None => if s.board.running.Some? then Returns(t, c, read) else Goes(t, c, Preparing(read)))
    case EndAgent(_) => Downs(Goes(s, c, EndingTools(s.starts[c].read, s.starts[c].was.tools)), s.starts[c].was.agent)
    case EndTools(_) => Downs(Goes(s, c, Preparing(s.starts[c].read)), s.starts[c].tools)
    case Fail(_) => Returns(s, c, s.starts[c].read)
    case StartTools(_, tools) =>
      Goes(s, c, HasTools(s.starts[c].read, tools)).(place := s.place[tools := WithStart(c)],
        owner := s.owner[tools := c])
    case Launch(_, agent) =>
      Goes(s, c, HasBoth(s.starts[c].read, Pair(agent, s.starts[c].tools))).(place := s.place[agent := WithStart(c)],
        owner := s.owner[agent := c])
    case LaunchFails(_) => Goes(s, c, DroppingTools(s.starts[c].read, s.starts[c].tools))
    case Settle(_) =>
      var read, both := s.starts[c].read, s.starts[c].both;
      var t := s.(board := Settled(s.board, both, read));
      if s.board.shutdowns != read then Goes(t, c, DroppingAgent(read, both))
        else Moves(Returns(t, c, read), both, InSlot)
    case DropAgent(_) => Downs(Goes(s, c, DroppingTools(s.starts[c].read, s.starts[c].both.tools)),
      s.starts[c].both.agent)
    case DropTools(_) => Downs(Returns(s, c, s.starts[c].read), s.starts[c].tools)
    case CallShutdown(_) => Stops(s, c, Called)
    case Bump(_) => var t := s.(board := CountedUp(s.board)); Stops(t, c, Bumped(t.board.shutdowns))
    case TakeOld(_) =>
      var count := s.ends[c].count;
      (match s.board.running
       case None => Stops(s, c, Ended(count))
       case Some(was) => Moves(Stops(s, c, StoppingAgent(count, was)), was,
         WithShutdown(c)).(board := AfterTake(s.board, false)))
    case StopAgent(_) => Downs(Stops(s, c, StoppingTools(s.ends[c].count, s.ends[c].was.tools)), s.ends[c].was.agent)
    case StopTools(_) => Downs(Stops(s, c, Ended(s.ends[c].count)), s.ends[c].tools)
  }

  // ----- what every run keeps -----

  /** The things that a start holds in its variables. */
  function HeldBy(p: Starting): set<Thing> {
    match p
    case EndingAgent(_, was) => {was.agent, was.tools}
    case EndingTools(_, tools) => {tools}
    case HasTools(_, tools) => {tools}
    case HasBoth(_, both) => {both.agent, both.tools}
    case DroppingAgent(_, both) => {both.agent, both.tools}
    case DroppingTools(_, tools) => {tools}
    case _ => {}
  }

  function HeldByEnd(p: Ending): set<Thing> {
    match p
    case StoppingAgent(_, was) => {was.agent, was.tools}
    case StoppingTools(_, tools) => {tools}
    case _ => {}
  }

  function InTheSlot(b: Board): set<Thing> {
    if b.running.Some? then {b.running.value.agent, b.running.value.tools} else {}
  }

  /** The place of each thing is where it is found, and nowhere else. */
  ghost predicate ThingAt(s: State, t: Thing)
    requires t in s.place
  {
    && t in s.owner && s.owner[t] in s.starts
    && (s.place[t].InSlot? <==> t in InTheSlot(s.board))
    && (s.place[t].WithStart? ==> s.place[t].call in s.starts && t in HeldBy(s.starts[s.place[t].call]))
    && (s.place[t].WithShutdown? ==> s.place[t].call in s.ends && t in HeldByEnd(s.ends[s.place[t].call]))
  }

  predicate Distinct(pair: Pair) { pair.agent != pair.tools }

  predicate HasDistinct(p: Starting) {
    (p.EndingAgent? ==> Distinct(p.was)) && (p.HasBoth? || p.DroppingAgent? ==> Distinct(p.both))
  }

  /** What it launched itself and what it ends for another. */
  predicate HasOwn(p: Starting) { p.HasTools? || p.HasBoth? || p.DroppingAgent? || p.DroppingTools? }

  predicate HoldsLock(p: Starting) { !p.Queued? && !p.Started? }

  ghost predicate StartPhaseAt(s: State, c: Call)
    requires c in s.starts
  {
    var p := s.starts[c];
    && HasDistinct(p)
    && (HoldsLock(p) <==> s.lock == Some(c))
    && (HoldsLock(p) && !p.Locked? && !p.Counted? ==> s.board.running.None?)
    && (!p.Queued? && !p.Locked? ==> p.read <= s.board.shutdowns)
  }

  ghost predicate StartAt(s: State, c: Call)
    requires c in s.starts
  {
    StartPhaseAt(s, c) && forall t {:trigger StartHas(s, c, t)} :: t in HeldBy(s.starts[c]) ==> StartHas(s, c, t)
  }

  ghost predicate StartHas(s: State, c: Call, t: Thing)
    requires c in s.starts
  {
    t in s.place && s.place[t] == WithStart(c) && t in s.owner && (HasOwn(s.starts[c]) ==> s.owner[t] == c)
  }

  ghost predicate EndPhaseAt(s: State, d: Call)
    requires d in s.ends
  {
    (s.ends[d].StoppingAgent? ==> Distinct(s.ends[d].was))
      && (!s.ends[d].Called? ==> s.ends[d].count <= s.board.shutdowns)
  }

  ghost predicate EndAt(s: State, d: Call)
    requires d in s.ends
  {
    EndPhaseAt(s, d) && forall t {:trigger EndHas(s, d, t)} :: t in HeldByEnd(s.ends[d]) ==> EndHas(s, d, t)
  }

  ghost predicate EndHas(s: State, d: Call, t: Thing) { t in s.place && s.place[t] == WithShutdown(d) }

  /** The agent in the slot came from a start that has returned; every later shutdown still has to look at the slot. */
  ghost predicate SlotAt(s: State) {
    s.board.running.Some? ==>
      var pair := s.board.running.value;
      && Distinct(pair) && pair.agent in s.place && pair.tools in s.place && pair.agent in s.owner
        && pair.tools in s.owner
      && s.owner[pair.agent] == s.owner[pair.tools] && s.owner[pair.agent] in s.starts
        && s.starts[s.owner[pair.agent]].Started?
      && forall d {:trigger StillToLook(s, d, pair)} :: d in s.ends ==> StillToLook(s, d, pair)
  }

  ghost predicate StillToLook(s: State, d: Call, pair: Pair)
    requires d in s.ends && pair.agent in s.owner && s.owner[pair.agent] in s.starts
    requires s.starts[s.owner[pair.agent]].Started?
  {
    !s.ends[d].Called? && s.ends[d].count > s.starts[s.owner[pair.agent]].read ==> s.ends[d].Bumped?
  }

  ghost predicate Inv(s: State) {
    && (forall t {:trigger ThingAt(s, t)} :: t in s.place ==> ThingAt(s, t))
    && (forall c {:trigger StartAt(s, c)} :: c in s.starts ==> StartAt(s, c))
    && (forall d {:trigger EndAt(s, d)} :: d in s.ends ==> EndAt(s, d))
    && SlotAt(s)
    && (s.lock.Some? ==> s.lock.value in s.starts)
  }

  predicate OfStart(step: Step) {
    !step.CallStart? && !step.CallShutdown? && !step.Bump? && !step.TakeOld? && !step.StopAgent? && !step.StopTools?
  }

  /** The steps that launch or drop. */
  predicate Launches(step: Step) {
    step.StartTools? || step.Launch? || step.LaunchFails? || step.DropAgent? || step.DropTools?
  }

  predicate OfEnd(step: Step) { step.Bump? || step.TakeOld? || step.StopAgent? || step.StopTools? }

  /** What holds of the call that takes a step and of a thing. */
  lemma AboutThing(s: State, step: Step, t: Thing)
    requires Inv(s) && Enabled(s, step)
    ensures OfStart(step) ==> StartAt(s, step.call) && (t in HeldBy(s.starts[step.call]) ==> StartHas(s, step.call, t))
    ensures OfEnd(step) ==> EndAt(s, step.call) && (t in HeldByEnd(s.ends[step.call]) ==> EndHas(s, step.call, t))
    ensures t in s.place ==> ThingAt(s, t)
    ensures t in InTheSlot(s.board) ==> t in s.place
  {
    if OfStart(step) {
      assert StartAt(s, step.call) && (t in HeldBy(s.starts[step.call]) ==> StartHas(s, step.call, t));
    }
    if OfEnd(step) { assert EndAt(s, step.call) && (t in HeldByEnd(s.ends[step.call]) ==> EndHas(s, step.call, t)); }
    assert t in s.place ==> ThingAt(s, t);
  }

  lemma LaunchKeepsThing(s: State, step: Step, t: Thing)
    requires Inv(s) && Enabled(s, step) && Launches(step) && t in Next(s, step).place
    ensures ThingAt(Next(s, step), t)
  {
    AboutThing(s, step, t);
  }

  lemma StartKeepsThing(s: State, step: Step, t: Thing)
    requires Inv(s) && Enabled(s, step) && OfStart(step) && !Launches(step) && t in Next(s, step).place
    ensures ThingAt(Next(s, step), t)
  {
    AboutThing(s, step, t);
  }

  lemma StepKeepsThing(s: State, step: Step, t: Thing)
    requires Inv(s) && Enabled(s, step) && t in Next(s, step).place
    ensures ThingAt(Next(s, step), t)
  {
    if Launches(step) {
      LaunchKeepsThing(s, step, t);
    } else if OfStart(step) {
      StartKeepsThing(s, step, t);
    } else {
      AboutThing(s, step, t);
    }
  }

  /** What a start holds after its own step. */
  lemma OwnStepKeepsHeld(s: State, step: Step, t: Thing)
    requires Inv(s) && Enabled(s, step) && OfStart(step) && t in HeldBy(Next(s, step).starts[step.call])
    ensures StartHas(Next(s, step), step.call, t)
  {
    AboutThing(s, step, t);
  }

  /** A thing in the hands of another call stays there. */
  lemma PlaceStays(s: State, step: Step, t: Thing)
    requires Inv(s) && Enabled(s, step) && t in s.place && t !in InTheSlot(s.board)
    requires OfStart(step) ==> s.place[t] != WithStart(step.call)
    requires OfEnd(step) ==> s.place[t] != WithShutdown(step.call)
    ensures t in Next(s, step).place && Next(s, step).place[t] == s.place[t]
    ensures t in s.owner ==> t in Next(s, step).owner && Next(s, step).owner[t] == s.owner[t]
  {
    AboutThing(s, step, t);
  }

  lemma OthersStay(s: State, step: Step, c: Call)
    requires Enabled(s, step) && c in s.starts && !(OfStart(step) && step.call == c)
    ensures c in Next(s, step).starts && Next(s, step).starts[c] == s.starts[c]
  {}

  lemma StepKeepsHeld(s: State, step: Step, c: Call, t: Thing)
    requires Inv(s) && Enabled(s, step) && c in Next(s, step).starts && t in HeldBy(Next(s, step).starts[c])
    ensures StartHas(Next(s, step), c, t)
  {
    if OfStart(step) && step.call == c {
      OwnStepKeepsHeld(s, step, t);
    } else if c in s.starts {
      OthersStay(s, step, c);
      AboutThing(s, step, t);
      assert StartAt(s, c) && StartHas(s, c, t);
      PlaceStays(s, step, t);
    }
  }

  lemma OwnStepKeepsPhase(s: State, step: Step)
    requires Inv(s) && Enabled(s, step) && OfStart(step)
    ensures StartPhaseAt(Next(s, step), step.call)
  {
    AboutThing(s, step, if step.Launch? then s.starts[step.call].tools else 0);
  }

  lemma StepKeepsStart(s: State, step: Step, c: Call)
    requires Inv(s) && Enabled(s, step) && c in Next(s, step).starts
    ensures StartAt(Next(s, step), c)
  {
    var n := Next(s, step);
    forall t | t in HeldBy(n.starts[c]) ensures StartHas(n, c, t) { StepKeepsHeld(s, step, c, t); }
    assert StartPhaseAt(n, c) by {
      if OfStart(step) && step.call == c {
        OwnStepKeepsPhase(s, step);
      } else if c in s.starts {
        OthersStay(s, step, c);
        AboutThing(s, step, 0);
        assert StartAt(s, c);
      }
    }
  }

  lemma OwnStepKeepsEnd(s: State, step: Step, t: Thing)
    requires Inv(s) && Enabled(s, step) && OfEnd(step)
    ensures EndPhaseAt(Next(s, step), step.call)
    ensures t in HeldByEnd(Next(s, step).ends[step.call]) ==> EndHas(Next(s, step), step.call, t)
  {
    AboutThing(s, step, t);
  }

  lemma OtherEndsStay(s: State, step: Step, d: Call)
    requires Enabled(s, step) && d in s.ends && !(OfEnd(step) && step.call == d)
    ensures d in Next(s, step).ends && Next(s, step).ends[d] == s.ends[d]
    ensures s.board.shutdowns <= Next(s, step).board.shutdowns
  {}

  lemma StepKeepsEnd(s: State, step: Step, d: Call)
    requires Inv(s) && Enabled(s, step) && d in Next(s, step).ends
    ensures EndAt(Next(s, step), d)
  {
    var n := Next(s, step);
    if OfEnd(step) && step.call == d {
      OwnStepKeepsEnd(s, step, 0);
      forall t | t in HeldByEnd(n.ends[d]) ensures EndHas(n, d, t) { OwnStepKeepsEnd(s, step, t); }
    } else if d in s.ends {
      OtherEndsStay(s, step, d);
      assert EndAt(s, d);
      forall t | t in HeldByEnd(n.ends[d]) ensures EndHas(n, d, t) {
        AboutThing(s, step, t);
        assert EndHas(s, d, t);
        PlaceStays(s, step, t);
      }
    }
  }

  /** A start that fills the slot read the counter as it is now, so no shutdown so far has one to look for. */
  lemma SettleKeepsSlot(s: State, step: Step)
    requires Inv(s) && Enabled(s, step) && step.Settle?
    ensures SlotAt(Next(s, step))
  {
    var both := s.starts[step.call].both;
    AboutThing(s, step, both.agent);
    AboutThing(s, step, both.tools);
    forall d | d in s.ends ensures EndAt(s, d) {}
  }

  lemma StepKeepsSlot(s: State, step: Step)
    requires Inv(s) && Enabled(s, step)
    ensures SlotAt(Next(s, step))
  {
    var n := Next(s, step);
    if step.Settle? {
      SettleKeepsSlot(s, step);
    } else if n.board.running.Some? {
      var pair := n.board.running.value;
      AboutThing(s, step, pair.agent);
      AboutThing(s, step, pair.tools);
      forall d | d in n.ends ensures StillToLook(n, d, pair) {
        if d in s.ends { assert EndAt(s, d) && StillToLook(s, d, pair); }
      }
    }
  }

  lemma StepKeepsInv(s: State, step: Step)
    requires Inv(s) && Enabled(s, step)
    ensures Inv(Next(s, step))
  {
    var n := Next(s, step);
    forall t | t in n.place ensures ThingAt(n, t) { StepKeepsThing(s, step, t); }
    forall c | c in n.starts ensures StartAt(n, c) { StepKeepsStart(s, step, c); }
    forall d | d in n.ends ensures EndAt(n, d) { StepKeepsEnd(s, step, d); }
    StepKeepsSlot(s, step);
    AboutThing(s, step, 0);
  }

  // ----- runs -----

  /** A run: steps one after another, each enabled when it is taken. */
  datatype Run = Begin | Then(before: Run, step: Step)

  ghost function After(r: Run): State
    requires Legal(r)
    decreases r, 1
  {
    match r
    case Begin => START
    case Then(before, step) => Next(After(before), step)
  }

  ghost predicate Legal(r: Run)
    decreases r, 0
  {
    r.Then? ==> Legal(r.before) && Enabled(After(r.before), r.step)
  }

  lemma {:induction false} EveryRunKeepsInv(r: Run)
    requires Legal(r)
    ensures Inv(After(r))
  {
    if r.Then? {
      EveryRunKeepsInv(r.before);
      StepKeepsInv(After(r.before), r.step);
    }
  }

  /** Where a thing can be found. */
  ghost predicate FoundAt(s: State, t: Thing, p: Place) {
    match p
    case InSlot => t in InTheSlot(s.board)
    case WithStart(c) => c in s.starts && t in HeldBy(s.starts[c])
    case WithShutdown(d) => d in s.ends && t in HeldByEnd(s.ends[d])
    case Down => t in s.place && s.place[t].Down?
  }

  /** Each agent and tool server ever launched is in exactly one place: in the slot, held by one call, or ended. */
  lemma InExactlyOnePlace(r: Run, t: Thing, p: Place)
    requires Legal(r) && t in After(r).place
    ensures FoundAt(After(r), t, p) <==> p == After(r).place[t]
  {
    EveryRunKeepsInv(r);
    var s := After(r);
    assert ThingAt(s, t);
    if p.WithStart? && p.call in s.starts {
      assert StartAt(s, p.call) && (t in HeldBy(s.starts[p.call]) ==> StartHas(s, p.call, t));
    }
    if p.WithShutdown? && p.call in s.ends {
      assert EndAt(s, p.call) && (t in HeldByEnd(s.ends[p.call]) ==> EndHas(s, p.call, t));
    }
  }

  ghost predicate LaunchedBy(s: State, t: Thing, c: Call) { t in s.place && t in s.owner && s.owner[t] == c }

  /** A call that takes what the slot held and ends it. */
  predicate IsEnding(s: State, p: Place) {
    || (p.WithStart? && p.call in s.starts && (s.starts[p.call].EndingAgent? || s.starts[p.call].EndingTools?))
    || p.WithShutdown?
  }

  /**
   * When a start has returned, and so has a shutdown that counted up after the start had read the counter, what
   * the start launched is ended, or in the hands of a call that took it out of the slot and is ending it.
   */
  lemma NothingStaysUp(r: Run, c: Call, d: Call, t: Thing)
    requires Legal(r) && c in After(r).starts && After(r).starts[c].Started? && d in After(r).ends
    requires After(r).ends[d].Ended?
    requires After(r).ends[d].count > After(r).starts[c].read && LaunchedBy(After(r), t, c)
    ensures After(r).place[t].Down? || IsEnding(After(r), After(r).place[t])
  {
    EveryRunKeepsInv(r);
    var s := After(r);
    assert ThingAt(s, t);
    if s.board.running.Some? { assert StillToLook(s, d, s.board.running.value); }
    if s.place[t].WithStart? { assert StartAt(s, s.place[t].call) && StartHas(s, s.place[t].call, t); }
  }

  /** So it is ended once no start and no shutdown is ending what it took out of the slot. */
  lemma AllDownInTheEnd(r: Run, c: Call, d: Call, t: Thing)
    requires Legal(r) && c in After(r).starts && After(r).starts[c].Started? && d in After(r).ends
    requires After(r).ends[d].Ended?
    requires forall k :: k in After(r).starts ==> !After(r).starts[k].EndingAgent? && !After(r).starts[k].EndingTools?
    requires forall k :: k in After(r).ends ==> !After(r).ends[k].StoppingAgent? && !After(r).ends[k].StoppingTools?
    requires After(r).ends[d].count > After(r).starts[c].read && LaunchedBy(After(r), t, c)
    ensures After(r).place[t].Down?
  {
    NothingStaysUp(r, c, d, t);
    EveryRunKeepsInv(r);
    assert ThingAt(After(r), t);
  }

  // ----- nothing is ended without a cause -----

  /** The step was taken in the run. */
  predicate Took(r: Run, step: Step)
    decreases r
  {
    r.Then? && (r.step == step || Took(r.before, step))
  }

  /** A shutdown, or a start that wants another agent or one that is ready, has taken the thing out of the slot. */
  ghost predicate TakenOut(r: Run, t: Thing)
    requires Legal(r)
    decreases r
  {
    r.Then? &&
    ((t in InTheSlot(After(r.before).board) && (r.step.TakeOld? || (r.step.TakeRunning? && !r.step.wanted)))
      || TakenOut(r.before, t))
  }

  /** The start that launched the thing drops it. */
  predicate IsDropping(p: Starting) { p.DroppingAgent? || p.DroppingTools? }

  ghost predicate IsGoing(s: State, t: Thing)
    requires t in s.place && t in s.owner && s.owner[t] in s.starts
  {
    var p := s.place[t];
    p.Down? || IsEnding(s, p) || (p == WithStart(s.owner[t]) && IsDropping(s.starts[s.owner[t]]))
  }

  /** Whether the call has read the counter. */
  predicate HasRead(p: Starting) { !p.Queued? && !p.Locked? }

  /** Why a thing is ended: it was taken out of the slot, its agent did not come up, or a shutdown counted up. */
  ghost predicate HasCause(r: Run, t: Thing)
    requires Legal(r)
  {
    var s := After(r);
    && t in s.owner && s.owner[t] in s.starts && HasRead(s.starts[s.owner[t]])
    && (TakenOut(r, t) || Took(r, LaunchFails(s.owner[t])) || s.board.shutdowns > s.starts[s.owner[t]].read)
  }

  /** What a start has read stays. */
  lemma ReadStays(s: State, step: Step, c: Call)
    requires Inv(s) && Enabled(s, step) && c in s.starts && HasRead(s.starts[c])
    ensures var n := Next(s, step);
      c in n.starts && HasRead(n.starts[c]) && n.starts[c].read == s.starts[c].read
  {
    if !(OfStart(step) && step.call == c) { OthersStay(s, step, c); }
  }

  lemma OwnerStays(s: State, step: Step, t: Thing)
    requires Inv(s) && Enabled(s, step) && t in s.place && t in s.owner
    ensures var n := Next(s, step);
      t in n.place && t in n.owner && n.owner[t] == s.owner[t] && s.board.shutdowns <= n.board.shutdowns
  {
    AboutThing(s, step, t);
  }

  ghost predicate CauseAt(r: Run, t: Thing)
    requires Legal(r)
  {
    var s := After(r);
    t in s.place ==>
      && t in s.owner && s.owner[t] in s.starts && HasRead(s.starts[s.owner[t]])
      && (IsGoing(s, t) ==> HasCause(r, t))
  }

  /** What makes a thing go down that did not before. */
  ghost predicate GoesBy(s: State, step: Step, t: Thing)
    requires Enabled(s, step) && t in s.place && t in s.owner && s.owner[t] in s.starts
    requires HasRead(s.starts[s.owner[t]])
  {
    || (t in InTheSlot(s.board) && (step.TakeOld? || (step.TakeRunning? && !step.wanted)))
    || step == LaunchFails(s.owner[t])
    || (step == Settle(s.owner[t]) && s.board.shutdowns > s.starts[s.owner[t]].read)
  }

  lemma {:induction false} LaunchGoesBy(s: State, step: Step, t: Thing)
    requires Inv(s) && Enabled(s, step) && Launches(step) && t in s.place && t in s.owner && s.owner[t] in s.starts
    requires HasRead(s.starts[s.owner[t]]) && !IsGoing(s, t)
    ensures var n := Next(s, step);
      t in n.place && t in n.owner && n.owner[t] in n.starts && (IsGoing(n, t) ==> GoesBy(s, step, t))
  {
    AboutThing(s, step, t);
    OwnerStays(s, step, t);
    ReadStays(s, step, s.owner[t]);
  }

  lemma {:induction false} StepGoesBy(s: State, step: Step, t: Thing)
    requires Inv(s) && Enabled(s, step) && t in s.place && t in s.owner && s.owner[t] in s.starts
    requires HasRead(s.starts[s.owner[t]]) && !IsGoing(s, t)
    ensures var n := Next(s, step);
      t in n.place && t in n.owner && n.owner[t] in n.starts && (IsGoing(n, t) ==> GoesBy(s, step, t))
  {
    if Launches(step) {
      LaunchGoesBy(s, step, t);
    } else {
      AboutThing(s, step, t);
      OwnerStays(s, step, t);
      ReadStays(s, step, s.owner[t]);
    }
  }

  lemma {:induction false} CauseStays(r: Run, t: Thing)
    requires Legal(r) && r.Then? && Inv(After(r.before)) && CauseAt(r.before, t) && t in After(r.before).place
    ensures CauseAt(r, t)
  {
    var s := After(r.before);
    ReadStays(s, r.step, s.owner[t]);
    OwnerStays(s, r.step, t);
    if !IsGoing(s, t) { StepGoesBy(s, r.step, t); }
  }

  /** A thing that has just been launched is not ended. */
  lemma {:induction false} JustLaunched(s: State, step: Step, t: Thing)
    requires Inv(s) && Enabled(s, step) && t !in s.place && t in Next(s, step).place
    ensures var n := Next(s, step);
      t in n.owner && n.owner[t] in n.starts && HasRead(n.starts[n.owner[t]]) && !IsGoing(n, t)
  {
    AboutThing(s, step, t);
  }

  lemma {:induction false} EveryRunHasCauses(r: Run, t: Thing)
    requires Legal(r)
    ensures CauseAt(r, t)
  {
    if r.Then? {
      EveryRunKeepsInv(r.before);
      EveryRunHasCauses(r.before, t);
      if t in After(r.before).place {
        CauseStays(r, t);
      } else if t in After(r).place {
        JustLaunched(After(r.before), r.step, t);
      }
    }
  }

  /**
   * In every run what a start launched is ended only because a shutdown, or a start that did not want it, took it out
   * of the slot, because its agent did not come up, or because a shutdown counted up after the start read the counter.
   */
  lemma EndedForACause(r: Run, t: Thing)
    requires Legal(r) && t in After(r).place && After(r).place[t].Down?
    ensures HasCause(r, t)
  {
    EveryRunHasCauses(r, t);
  }

  /** A start whose agent came up, while no shutdown has counted up since it read the counter, fills the slot. */
  lemma {:induction false} StartFillsTheSlot(r: Run, c: Call)
    requires Legal(r) && c in After(r).starts && After(r).starts[c].HasBoth?
    requires After(r).board.shutdowns == After(r).starts[c].read
    ensures var n := Next(After(r), Settle(c));
      && n.board.running == Some(After(r).starts[c].both) && n.starts[c].Started? && n.lock.None?
  {}

  lemma TakeStep(r: Run, step: Step) returns (next: Run)
    requires Legal(r) && Enabled(After(r), step)
    ensures Legal(next) && After(next) == Next(After(r), step)
  {
    next := Then(r, step);
  }

  /** A first start takes the lock and finds nothing running. */
  lemma OnePreparing() returns (r: Run)
    ensures Legal(r) && After(r) == State(Board(None, 0), Some(0), map[0 := Preparing(0)], map[], map[], map[])
  {
    r := Begin;
    r := TakeStep(r, CallStart(0));
    r := TakeStep(r, Lock(0));
    r := TakeStep(r, ReadCounter(0));
    r := TakeStep(r, TakeRunning(0, false));
  }

  /** It launches tools 0 and agent 1. */
  lemma OneStarted() returns (r: Run)
    ensures Legal(r) && After(r).board == Board(Some(Pair(1, 0)), 0) && After(r).lock.None?
    ensures After(r).starts == map[0 := Started(0)] && After(r).ends == map[]
    ensures LaunchedBy(After(r), 1, 0) && 0 in After(r).place
  {
    r := OnePreparing();
    r := TakeStep(r, StartTools(0, 0));
    r := TakeStep(r, Launch(0, 1));
    r := TakeStep(r, Settle(0));
  }

  /**
   * Not before: a second start can have taken the agent to end it, so that the shutdown finds no agent and returns
   * while the agent is still up.
   */
  lemma StillUpAfterBothReturned() returns (r: Run, c: Call, d: Call, t: Thing)
    ensures Legal(r) && c in After(r).starts && After(r).starts[c].Started? && d in After(r).ends
    ensures After(r).ends[d].Ended?
    ensures After(r).ends[d].count > After(r).starts[c].read && LaunchedBy(After(r), t, c)
    ensures !After(r).place[t].Down?
  {
    c, d, t := 0, 0, 1;
    r := OneStarted();
    r := TakeStep(r, CallStart(1));
    r := TakeStep(r, Lock(1));
    r := TakeStep(r, ReadCounter(1));
    r := TakeStep(r, TakeRunning(1, false));
    r := TakeStep(r, CallShutdown(0));
    r := TakeStep(r, Bump(0));
    r := TakeStep(r, TakeOld(0));
  }
}

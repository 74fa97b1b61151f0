/**
 * The database context that the first message of a conversation carries to the agent. `Conversation` has the atomic
 * sections of the source; a run is any interleaving of overlapping prompts.
 */
module PendingContext {
  import opened Text
  import opened ContextBlock

  class Conversation {
    var pending: Option<string>

    constructor (context: Option<string>)
      ensures pending == context
    {
      pending := context;
    }

    /** What is sent for a text: with the context, if it waits, which is taken along. */
    method Take(text: string) returns (context: Option<string>, sent: string)
      modifies this`pending
      ensures context == old(pending) && pending == AfterTake(old(pending)) && sent == Sent(text, context)
    {
      context := pending;
      pending := None;
      sent := if context.Some? then WithContext(text, context.value) else text;
    }

    /** The agent has answered or failed; a context that it has not seen waits again. */
    method Finish(context: Option<string>, ok: bool)
      modifies this`pending
      ensures pending == AfterFinish(old(pending), context, ok)
    {
      if !ok && context.Some? { pending := context; }
    }
  }

  /** Nothing waits any more. */
  function AfterTake(pending: Option<string>): Option<string> { None }

  function AfterFinish(pending: Option<string>, context: Option<string>, ok: bool): Option<string> {
    if !ok && context.Some? then context else pending
  }

  function Sent(text: string, context: Option<string>): string {
    if context.Some? then WithContext(text, context.value) else text
  }

  type Call = nat

  datatype Event = Prompts(call: Call, text: string) | Succeeds(call: Call) | Fails(call: Call)

  /** A prompt that waits for the agent: its text and the context it took. */
  datatype Flight = Flight(text: string, context: Option<string>)

  /** `delivered` are the messages that reached the agent. */
  datatype State = State(pending: Option<string>, flights: map<Call, Flight>, delivered: seq<Flight>)

  predicate Enabled(s: State, e: Event) { if e.Prompts? then e.call !in s.flights else e.call in s.flights }

  function Next(s: State, e: Event): State
    requires Enabled(s, e)
  {
    match e
    case Prompts(c, text) => s.(pending := AfterTake(s.pending), flights := s.flights[c := Flight(text, s.pending)])
    case Succeeds(c) => 
      s.(pending := AfterFinish(s.pending, s.flights[c].context, true), flights := s.flights - {c},
        delivered := s.delivered + [s.flights[c]])
    case Fails(c) => s.(pending := AfterFinish(s.pending, s.flights[c].context, false), flights := s.flights - {c})
  }

  datatype Run = Opens(context: string) | Then(before: Run, event: Event)

  ghost function After(r: Run): State
    requires Legal(r)
    decreases r, 1
  {
    match r
    case Opens(context) => State(Some(context), map[], [])
    case Then(before, e) => Next(After(before), e)
  }

  ghost predicate Legal(r: Run)
    decreases r, 0
  {
    r.Then? ==> Legal(r.before) && Enabled(After(r.before), r.event)
  }

  function ContextOf(r: Run): string {
    match r case Opens(context) => context case Then(before, _) => ContextOf(before)
  }

  datatype Place = Waiting | With(call: Call) | Delivered(k: nat)

  ghost predicate IsAt(s: State, p: Place, context: string) {
    match p
    case Waiting => s.pending == Some(context)
    case With(c) => c in s.flights && s.flights[c].context == Some(context)
    case Delivered(k) => k < |s.delivered| && s.delivered[k].context == Some(context)
  }

  /** A context is there. */
  ghost predicate HasContext(s: State, p: Place) {
    match p
    case Waiting => s.pending.Some?
    case With(c) => c in s.flights && s.flights[c].context.Some?
    case Delivered(k) => k < |s.delivered| && s.delivered[k].context.Some?
  }

  /** The context is in one place, and nothing else is anywhere. */
  ghost predicate OnlyAt(s: State, p: Place, context: string) {
    IsAt(s, p, context) && forall q :: HasContext(s, q) ==> q == p
  }

  /** Where the context goes with an event. */
  ghost function Moved(s: State, p: Place, e: Event): Place {
    match e
    case Prompts(c, _) => if p.Waiting? then With(c) else p
    case Succeeds(c) => if p == With(c) then Delivered(|s.delivered|) else p
    case Fails(c) => if p == With(c) then Waiting else p
  }

  lemma StepMoves(s: State, e: Event, p: Place, context: string)
    requires Enabled(s, e) && OnlyAt(s, p, context)
    ensures OnlyAt(Next(s, e), Moved(s, p, e), context)
  {
    var n := Next(s, e);
    assert HasContext(s, With(e.call)) ==> p == With(e.call);
    forall q | HasContext(n, q) ensures q == Moved(s, p, e) {
      assert HasContext(s, q) ==> q == p;
      assert HasContext(s, Waiting) ==> p.Waiting?;
      assert HasContext(s, With(e.call)) ==> p == With(e.call);
    }
  }

  /**
   * Over every run the context is waiting, held by exactly one prompt that is under way, or delivered by exactly one
   * message that reached the agent, and no other message carries one.
   */
  lemma {:induction false} InExactlyOnePlace(r: Run) returns (p: Place)
    requires Legal(r)
    ensures OnlyAt(After(r), p, ContextOf(r))
  {
    if r.Opens? {
      p := Waiting;
    } else {
      var q := InExactlyOnePlace(r.before);
      StepMoves(After(r.before), r.event, q, ContextOf(r));
      p := Moved(After(r.before), q, r.event);
    }
  }

  lemma StepKeepsDelivered(s: State, e: Event, k: nat, context: string)
    requires Enabled(s, e) && OnlyAt(s, Delivered(k), context)
    ensures OnlyAt(Next(s, e), Delivered(k), context)
    ensures e.Prompts? ==> Sent(e.text, Next(s, e).flights[e.call].context) == e.text
  {
    StepMoves(s, e, Delivered(k), context);
    assert !HasContext(s, Waiting);
  }

  predicate Extends(later: Run, r: Run)
    decreases later
  {
    later == r || (later.Then? && Extends(later.before, r))
  }

  /**
   * Once a message has delivered the context it stays so in every continuation of the run: that message keeps it,
   * nothing waits and no other message or prompt has one, and every prompt after it sends its text alone.
   */
  lemma {:induction false} DeliveredOnce(r: Run, later: Run, k: nat)
    requires Legal(later) && Extends(later, r)
    ensures Legal(r)
    ensures HasContext(After(r), Delivered(k)) ==>
      && OnlyAt(After(later), Delivered(k), ContextOf(r))
      && (later != r && later.event.Prompts? ==> NoContext(After(later), later.event))
    decreases later
  {
    if later == r {
      var p := InExactlyOnePlace(r);
    } else {
      DeliveredOnce(r, later.before, k);
      if HasContext(After(r), Delivered(k)) { StepKeepsDelivered(After(later.before), later.event, k, ContextOf(r)); }
    }
  }

  /** A prompt that has just been sent is its text. */
  ghost predicate NoContext(s: State, e: Event) {
    e.Prompts? && e.call in s.flights && Sent(e.text, s.flights[e.call].context) == e.text
  }

  /** No prompt under way and no delivered message has a context. */
  ghost predicate NobodyHasIt(s: State) {
    (forall c :: c in s.flights ==> s.flights[c].context.None?)
      && (forall k :: 0 <= k < |s.delivered| ==> s.delivered[k].context.None?)
  }

  /** A prompt carries the context if and only if no other has it and no message has delivered it. */
  lemma {:induction false} TheNextPromptCarriesIt(r: Run)
    requires Legal(r) && r.Then? && r.event.Prompts?
    ensures var s, sent := After(r.before), After(r).flights[r.event.call];
      && sent.text == r.event.text
      && sent.context == (if NobodyHasIt(s) then Some(ContextOf(r)) else None)
  {
    var s := After(r.before);
    var p := InExactlyOnePlace(r.before);
    match p
    case Waiting =>
      forall c | c in s.flights ensures s.flights[c].context.None? { assert HasContext(s, With(c)) ==> With(c) == p; }
      forall k: nat | k < |s.delivered| ensures s.delivered[k].context.None? {
        assert HasContext(s, Delivered(k)) ==> Delivered(k) == p;
      }
    case With(c) => assert s.flights[c].context.Some? && (HasContext(s, Waiting) ==> Waiting == p);
    case Delivered(k) => assert s.delivered[k].context.Some? && (HasContext(s, Waiting) ==> Waiting == p);
  }
}

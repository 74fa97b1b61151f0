/**
 * Opening conversations: the newest opening wins, and the updates that arrive before a conversation's id is known
 * are kept. The methods are what runs between two awaits; a run is any interleaving of overlapping openings.
 */
module ConversationOpener {
  import opened Text
  import opened AssistantConversation

  /** `closed` are the conversations that the backend was told to close. */
  datatype View = View(generation: nat, active: nat, buffered: map<string, seq<Update>>, closed: seq<string>)

  function Kept(v: View, id: string): seq<Update> { if id in v.buffered then v.buffered[id] else [] }

  function Replay(updates: seq<Update>, n: nat): Conversation
    requires n <= |updates|
  {
    if n == 0 then EMPTY else ApplyUpdate(Replay(updates, n - 1), updates[n - 1], None)
  }

  function AfterReceive(v: View, id: string, u: Update): View {
    if v.active == 0 then v else v.(buffered := v.buffered[id := Kept(v, id) + [u]])
  }

  function AfterInvalidate(v: View): View { v.(generation := v.generation + 1) }

  function AfterBegin(v: View): View { v.(generation := v.generation + 1, active := v.active + 1) }

  /** The end of an opening, however it went. */
  function AfterEnd(v: View): View
    requires v.active > 0
  {
    v.(active := v.active - 1, buffered := if v.active == 1 then map[] else v.buffered)
  }

  /** The backend has opened a conversation; it is closed again when the opening is no longer the newest. */
  function AfterResolve(v: View, mine: nat, id: string): View
    requires v.active > 0
  {
    AfterEnd(v.(buffered := v.buffered - {id}, closed := if mine != v.generation then v.closed + [id] else v.closed))
  }

  class ConversationOpener {
    var generation: nat
    var active: nat
    var buffered: map<string, seq<Update>>
    var closed: seq<string>

    constructor ()
      ensures Now() == View(0, 0, map[], [])
    {
      generation, active, buffered, closed := 0, 0, map[], [];
    }

    function Now(): View
      reads this
    {
      View(generation, active, buffered, closed)
    }

    /** Updates are kept as long as this holds. */
    predicate Opening()
      reads this
    {
      active > 0
    }

    /** Makes every opening so far an old one. */
    method Invalidate()
      modifies this`generation
      ensures Now() == AfterInvalidate(old(Now()))
    {
      generation := generation + 1;
    }

    /** Puts an update behind those of its conversation, as long as anything opens; tells whether it did. */
    method Receive(id: string, update: Update) returns (kept: bool)
      modifies this`buffered
      ensures Now() == AfterReceive(old(Now()), id, update) && kept == old(Opening())
    {
      if active == 0 { return false; }
      var before := if id in buffered then buffered[id] else [];
      buffered := buffered[id := before + [update]];
      kept := true;
    }

    /** An opening, up to its wait for the backend. */
    method Begin() returns (mine: nat)
      modifies this`generation, this`active
      ensures Now() == AfterBegin(old(Now())) && mine == generation
    {
      generation := generation + 1;
      mine := generation;
      active := active + 1;
    }

    method End()
      requires active > 0
      modifies this`active, this`buffered
      ensures Now() == AfterEnd(old(Now()))
    {
      active := active - 1;
      if active == 0 { buffered := map[]; }
    }

    /** An opening, once the backend has opened the conversation: its state, or nothing when a newer one came first. */
    method Resolve(mine: nat, id: string) returns (state: Option<Conversation>)
      requires active > 0
      modifies this
      ensures Now() == AfterResolve(old(Now()), mine, id)
      ensures var updates := Kept(old(Now()), id);
        state == if mine != old(generation) then None else Some(Replay(updates, |updates|))
    {
      var updates := if id in buffered then buffered[id] else [];
      buffered := buffered - {id};
      if mine != generation {
        closed := closed + [id];
        End();
        return None;
      }
      var replayed := EMPTY;
      for k := 0 to |updates|
        invariant replayed == Replay(updates, k)
      {
        replayed := ApplyUpdate(replayed, updates[k], None);
      }
      End();
      state := Some(replayed);
    }
  }

  // ----- runs -----

  type Call = nat

  datatype Event =
    | Begins(call: Call)
    | Resolves(call: Call, id: string)
    | Rejects(call: Call)
    | Invalidates
    | Receives(id: string, update: Update)

  /** `mine` are the generations of the openings that wait for the backend; `adopted` the states given out. */
  datatype State = State(view: View, mine: map<Call, nat>, adopted: seq<(string, Conversation)>)

  const START := State(View(0, 0, map[], []), map[], [])

  predicate Enabled(s: State, e: Event) {
    match e
    case Begins(c) => c !in s.mine
    case Resolves(c, _) => c in s.mine && s.view.active > 0
    case Rejects(c) => c in s.mine && s.view.active > 0
    case _ => true
  }

  /** An opening that ends now gives out a conversation. */
  predicate Wins(s: State, c: Call)
    requires c in s.mine
  {
    s.mine[c] == s.view.generation
  }

  function Next(s: State, e: Event): State
    requires Enabled(s, e)
  {
    match e
    case Begins(c) => s.(view := AfterBegin(s.view), mine := s.mine[c := AfterBegin(s.view).generation])
    case Resolves(c, id) =>
      var updates := Kept(s.view, id);
      s.(view := AfterResolve(s.view, s.mine[c], id), mine := s.mine - {c},
         adopted := if Wins(s, c) then s.adopted + [(id, Replay(updates, |updates|))] else s.adopted)
    case Rejects(c) => s.(view := AfterEnd(s.view), mine := s.mine - {c})
    case Invalidates => s.(view := AfterInvalidate(s.view))
    case Receives(id, u) => s.(view := AfterReceive(s.view, id, u))
  }

  datatype Run = Nothing | Then(before: Run, event: Event)

  ghost function After(r: Run): State
    requires Legal(r)
    decreases r, 1
  {
    match r
    case Nothing => START
    case Then(before, e) => Next(After(before), e)
  }

  ghost predicate Legal(r: Run)
    decreases r, 0
  {
    r.Then? ==> Legal(r.before) && Enabled(After(r.before), r.event)
  }

  /** As many openings are counted as wait for the backend, and nothing is kept while none does. */
  lemma {:induction false} EveryRunCounts(r: Run)
    requires Legal(r)
    ensures After(r).view.active == |After(r).mine|
    ensures After(r).view.active == 0 ==> After(r).view.buffered == map[]
  {
    if r.Then? {
      EveryRunCounts(r.before);
      var s := After(r.before);
      match r.event
      case Begins(c) => assert s.mine[c := s.view.generation + 1].Keys == s.mine.Keys + {c};
      case Resolves(c, _) => assert (s.mine - {c}).Keys == s.mine.Keys - {c};
      case Rejects(c) => assert (s.mine - {c}).Keys == s.mine.Keys - {c};
      case _ =>
    }
  }

  // ----- the newest wins -----

  predicate IsMark(e: Event) { e.Begins? || e.Invalidates? }

  /** No opening or invalidation came after the last time `c` began. */
  predicate NoneSince(r: Run, c: Call) {
    r.Then? && (r.event == Begins(c) || (!IsMark(r.event) && NoneSince(r.before, c)))
  }

  lemma {:induction false} MineIsPast(r: Run, c: Call)
    requires Legal(r) && c in After(r).mine
    ensures After(r).mine[c] <= After(r).view.generation
    ensures Wins(After(r), c) <==> NoneSince(r, c)
  {
    if r.Then? && r.event != Begins(c) { MineIsPast(r.before, c); }
  }

  /**
   * An opening gives out its conversation exactly when no opening or invalidation began after it; else that is
   * closed.
   */
  lemma NewestWins(r: Run, c: Call, id: string)
    requires Legal(r) && Enabled(After(r), Resolves(c, id))
    ensures var s, n := After(r), Next(After(r), Resolves(c, id));
      if NoneSince(r, c) then |n.adopted| == |s.adopted| + 1 && n.adopted[|s.adopted|].0 == id
        && n.view.closed == s.view.closed
      else n.adopted == s.adopted && n.view.closed == s.view.closed + [id]
  {
    MineIsPast(r, c);
  }

  // ----- every conversation opened is given out or closed, once -----

  function Times(id: string, e: Event): nat { if e.Resolves? && e.id == id then 1 else 0 }

  /** How often the backend opened a conversation with this id. */
  function Opened(r: Run, id: string): nat { if r.Nothing? then 0 else Opened(r.before, id) + Times(id, r.event) }

  function Closings(closed: seq<string>, n: nat, id: string): nat
    requires n <= |closed|
  {
    if n == 0 then 0 else Closings(closed, n - 1, id) + if closed[n - 1] == id then 1 else 0
  }

  function Adoptions(adopted: seq<(string, Conversation)>, n: nat, id: string): nat
    requires n <= |adopted|
  {
    if n == 0 then 0 else Adoptions(adopted, n - 1, id) + if adopted[n - 1].0 == id then 1 else 0
  }

  lemma {:induction false} SameClosings(closed: seq<string>, more: seq<string>, n: nat, id: string)
    requires n <= |closed| && n <= |more| && forall k :: 0 <= k < n ==> more[k] == closed[k]
    ensures Closings(more, n, id) == Closings(closed, n, id)
  {
    if n > 0 { SameClosings(closed, more, n - 1, id); }
  }

  lemma {:induction false} SameAdoptions(adopted: seq<(string, Conversation)>, more: seq<(string, Conversation)>,
      n: nat, id: string)
    requires n <= |adopted| && n <= |more| && forall k :: 0 <= k < n ==> more[k] == adopted[k]
    ensures Adoptions(more, n, id) == Adoptions(adopted, n, id)
  {
    if n > 0 { SameAdoptions(adopted, more, n - 1, id); }
  }

  function Ended(s: State, id: string): nat {
    Closings(s.view.closed, |s.view.closed|, id) + Adoptions(s.adopted, |s.adopted|, id)
  }

  lemma OneClosingMore(closed: seq<string>, id: string, other: string)
    ensures Closings(closed + [other], |closed| + 1, id) == Closings(closed, |closed|, id) + if other == id then 1
      else 0
  {
    SameClosings(closed, closed + [other], |closed|, id);
  }

  lemma OneAdoptionMore(adopted: seq<(string, Conversation)>, id: string, other: (string, Conversation))
    ensures Adoptions(adopted + [other], |adopted| + 1, id) ==
      Adoptions(adopted, |adopted|, id) + if other.0 == id then 1 else 0
  {
    SameAdoptions(adopted, adopted + [other], |adopted|, id);
  }

  /** Each event ends a conversation or none. */
  lemma EventCounts(s: State, e: Event, id: string)
    requires Enabled(s, e)
    ensures Ended(Next(s, e), id) == Ended(s, id) + Times(id, e)
  {
    if e.Resolves? {
      var updates := Kept(s.view, e.id);
      OneClosingMore(s.view.closed, id, e.id);
      OneAdoptionMore(s.adopted, id, (e.id, Replay(updates, |updates|)));
    }
  }

  /** Over every run each conversation that was opened has been given out or closed, as often as it was opened. */
  lemma {:induction false} GivenOutOrClosed(r: Run, id: string)
    requires Legal(r)
    ensures Ended(After(r), id) == Opened(r, id)
  {
    if r.Then? {
      GivenOutOrClosed(r.before, id);
      EventCounts(After(r.before), r.event, id);
    }
  }

  // ----- what is replayed -----

  /** All updates of a conversation that have arrived, in order. */
  function Arrived(r: Run, id: string): seq<Update> {
    if r.Nothing? then []
    else if r.event.Receives? && r.event.id == id then Arrived(r.before, id) + [r.event.update]
    else Arrived(r.before, id)
  }

  /** None of them had arrived when the opening that waits now began. */
  predicate NewSince(r: Run, c: Call, id: string) {
    r.Then? && if r.event == Begins(c) then Arrived(r.before, id) == [] else NewSince(r.before, c, id)
  }

  lemma {:induction false} NothingKept(r: Run, id: string)
    requires Legal(r) && Arrived(r, id) == []
    ensures Kept(After(r).view, id) == []
  {
    if r.Then? { NothingKept(r.before, id); }
  }

  lemma {:induction false} AllKept(r: Run, c: Call, id: string)
    requires Legal(r) && c in After(r).mine && NewSince(r, c, id) && Opened(r, id) == 0
    ensures Kept(After(r).view, id) == Arrived(r, id)
  {
    if r.event == Begins(c) {
      NothingKept(r.before, id);
    } else {
      AllKept(r.before, c, id);
      EveryRunCounts(r.before);
      EveryRunCounts(r);
      StillWaits(After(r), c);
    }
  }

  lemma StillWaits(s: State, c: Call)
    requires c in s.mine && s.view.active == |s.mine|
    ensures s.view.active > 0
  {
    assert c in s.mine.Keys;
  }

  /**
   * A conversation with a fresh id, none of whose updates came before its opening, is given out with all of its
   * updates replayed, in the order they arrived, whatever else was opening meanwhile.
   */
  lemma ReplayIsComplete(r: Run, c: Call, id: string)
    requires Legal(r) && Enabled(After(r), Resolves(c, id)) && NoneSince(r, c)
    requires NewSince(r, c, id) && Opened(r, id) == 0
    ensures var s, n := After(r), Next(After(r), Resolves(c, id));
      n.adopted == s.adopted + [(id, Replay(Arrived(r, id), |Arrived(r, id)|))]
  {
    AllKept(r, c, id);
    MineIsPast(r, c);
  }
}

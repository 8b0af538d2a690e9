/** The single-flight comparison cache. Entries live on a heap and the map points at them, because a finishing
    build checks that the map still points at its own entry. Each critical section is a step taken at one
    instant; times are nanoseconds and a key stands for its canonical form with the deployment fingerprint. */
module ComparisonCache {
  import opened Basics

  const SECOND: int := 1_000_000_000
  const TTL: int := 600 * SECOND
  const MAX_STALE: int := 21_600 * SECOND
  const MIN_COST: int := SECOND

  datatype Stamped = Stamped(value: string, at: int)
  datatype Entry = Entry(cached: Option<Stamped>, flight: Option<nat>)

  /** A build ends with a value, with nothing, or with an error. */
  datatype Outcome = Built(value: string) | Nothing | Failed

  datatype Phase = Building | Committed(outcome: Outcome) | Closed(outcome: Outcome)
  datatype Flight = Flight(key: string, entry: nat, phase: Phase)

  type Entries = map<string, nat>
  type Heap = map<nat, Entry>

  /** How a caller was answered: from the cache, at some age, or by waiting for a flight. */
  datatype Answer = Cached(value: string, age: int) | Waiting(flight: nat) | Received(flight: nat, outcome: Outcome)
  datatype Call = Call(key: string, answer: Answer)

  datatype State = State(entries: Entries, heap: Heap, flights: map<nat, Flight>, now: int, calls: map<nat, Call>)

  const START := State(map[], map[], map[], 0, map[])

  // ---------------------------------------------------------------- eviction

  predicate Expired(e: Entry, now: int)
  {
    e.cached.Some? && now - e.cached.value.at >= MAX_STALE
  }

  function Aged(e: Entry, now: int): Entry
  {
    if Expired(e, now) then e.(cached := None) else e
  }

  predicate Useless(e: Entry)
  {
    e.cached.None? && e.flight.None?
  }

  ghost predicate Sound(entries: Entries, heap: Heap)
  {
    && (forall key :: key in entries ==> entries[key] in heap)
    && (forall a, b :: a in entries && b in entries && entries[a] == entries[b] ==> a == b)
  }

  ghost predicate Points(entries: Entries, keys: set<string>, id: nat)
  {
    exists key :: key in keys && key in entries && entries[key] == id
  }

  ghost function HeapAfter(entries: Entries, heap: Heap, keys: set<string>, now: int): Heap
  {
    map id | id in heap :: if Points(entries, keys, id) then Aged(heap[id], now) else heap[id]
  }

  ghost function EntriesAfter(entries: Entries, heap: Heap, keys: set<string>, now: int): Entries
    requires Sound(entries, heap)
  {
    map key | key in entries && !(key in keys && Useless(Aged(heap[entries[key]], now))) :: entries[key]
  }

  /** evictExpiredLocked: what is too old to serve goes, and so does an entry left with neither value nor
      flight. */
  method EvictExpired(entries: Entries, heap: Heap, now: int) returns (kept: Entries, aged: Heap)
    requires Sound(entries, heap)
    ensures kept == EntriesAfter(entries, heap, entries.Keys, now)
    ensures aged == HeapAfter(entries, heap, entries.Keys, now)
  {
    kept, aged := entries, heap;
    var seen, rest := {}, entries.Keys;
    while rest != {}
      invariant seen !! rest && seen + rest == entries.Keys
      invariant kept == EntriesAfter(entries, heap, seen, now)
      invariant aged == HeapAfter(entries, heap, seen, now)
      decreases rest
    {
      var key :| key in rest;
      EvictOne(entries, heap, seen, key, now);
      var id := entries[key];
      aged := aged[id := Aged(aged[id], now)];
      if Useless(aged[id]) { kept := kept - {key}; }
      seen, rest := seen + {key}, rest - {key};
    }
  }

  lemma EvictOne(entries: Entries, heap: Heap, seen: set<string>, key: string, now: int)
    requires Sound(entries, heap) && key in entries && key !in seen
    ensures var id := entries[key];
            && HeapAfter(entries, heap, seen, now)[id] == heap[id]
            && HeapAfter(entries, heap, seen + {key}, now)
                == HeapAfter(entries, heap, seen, now)[id := Aged(heap[id], now)]
            && EntriesAfter(entries, heap, seen + {key}, now)
               == if Useless(Aged(heap[id], now)) then EntriesAfter(entries, heap, seen, now) - {key}
                   else EntriesAfter(entries, heap, seen, now)
  {
    var id := entries[key];
    assert !Points(entries, seen, id);
    forall i | i in heap ensures Points(entries, seen + {key}, i) <==> Points(entries, seen, i) || i == id {
      if Points(entries, seen, i) {
        var k :| k in seen && k in entries && entries[k] == i;
        assert k in seen + {key};
      }
      if i == id { assert key in seen + {key}; }
    }
  }

  // ---------------------------------------------------------------- the steps

  datatype Step =
    | Ask(c: nat, key: string, snapshot: Option<Stamped>, id: nat, f: nat)  // deploymentComparison, under the lock
    | Commit(f: nat, outcome: Outcome, cost: int)                           // runComparisonFlight, under the lock
    | Close(f: nat)                                                         // it hands its result over
    | Receive(c: nat)
    | Leave(c: nat)                                                         // the caller's context ended
    | Tick(elapsed: nat)

  predicate InPhase(s: State, f: nat, phase: Phase)
  {
    f in s.flights && s.flights[f].phase == phase
  }

  predicate Waits(s: State, c: nat)
  {
    c in s.calls && s.calls[c].answer.Waiting?
  }

  /** New entries and flights are fresh allocations. */
  ghost predicate Enabled(s: State, step: Step)
  {
    match step
    case Ask(c, _, _, id, f) => Sound(s.entries, s.heap) && c !in s.calls && id !in s.heap && f !in s.flights
    case Commit(f, _, _) => InPhase(s, f, Building) && s.flights[f].entry in s.heap
    case Close(f) => f in s.flights && s.flights[f].phase.Committed?
    case Receive(c) => Waits(s, c) && s.calls[c].answer.flight in s.flights
        && s.flights[s.calls[c].answer.flight].phase.Closed?
    case Leave(c) => Waits(s, c)
    case Tick(_) => true
  }

  ghost function Evicted(s: State): State
    requires Sound(s.entries, s.heap)
  {
    s.(entries := EntriesAfter(s.entries, s.heap, s.entries.Keys, s.now),
        heap := HeapAfter(s.entries, s.heap, s.entries.Keys, s.now))
  }

  /** The key has an entry, perhaps a new one with a stored snapshot that is not too old. */
  function Opened(s: State, key: string, snapshot: Option<Stamped>, id: nat): State
  {
    if key in s.entries then s
    else
      var e := Entry(if snapshot.Some? && s.now - snapshot.value.at < MAX_STALE then snapshot else None, None);
      s.(entries := s.entries[key := id], heap := s.heap[id := e])
  }

  predicate Fresh(s: State, id: nat)
    requires id in s.heap
  {
    s.heap[id].cached.Some? && s.now - s.heap[id].cached.value.at < TTL
  }

  /** The entry has a build in progress, perhaps a new one. */
  function Launched(s: State, key: string, id: nat, f: nat): State
    requires id in s.heap
  {
    if s.heap[id].flight.Some? then s
    else s.(heap := s.heap[id := s.heap[id].(flight := Some(f))], flights := s.flights[f := Flight(key, id, Building)])
  }

  function Reply(s: State, id: nat): Answer
    requires id in s.heap && (Fresh(s, id) || s.heap[id].flight.Some?)
  {
    var e := s.heap[id];
    if e.cached.Some? then Cached(e.cached.value.value, s.now - e.cached.value.at) else Waiting(e.flight.value)
  }

  ghost function Asked(s: State, c: nat, key: string, snapshot: Option<Stamped>, id: nat, f: nat): State
    requires Sound(s.entries, s.heap)
  {
    var found := Opened(Evicted(s), key, snapshot, id);
    var e := found.entries[key];
    var ready := if Fresh(found, e) then found else Launched(found, key, e, f);
    ready.(calls := ready.calls[c := Call(key, Reply(ready, e))])
  }

  function Kept(e: Entry, outcome: Outcome, cost: int, now: int): Option<Stamped>
  {
    match outcome
    case Failed => e.cached
    case Built(value) => if cost >= MIN_COST then Some(Stamped(value, now)) else None
    case Nothing => None
  }

  function Committing(s: State, f: nat, outcome: Outcome, cost: int): State
    requires f in s.flights && s.flights[f].entry in s.heap
  {
    var key, id := s.flights[f].key, s.flights[f].entry;
    var cached := Kept(s.heap[id], outcome, cost, s.now);
    s.(heap := s.heap[id := Entry(cached, None)],
       entries := if cached.None? && key in s.entries && s.entries[key] == id then s.entries - {key} else s.entries,
       flights := s.flights[f := s.flights[f].(phase := Committed(outcome))])
  }

  ghost function Apply(s: State, step: Step): State
    requires Enabled(s, step)
  {
    match step
    case Ask(c, key, snapshot, id, f) => Asked(s, c, key, snapshot, id, f)
    case Commit(f, outcome, cost) => Committing(s, f, outcome, cost)
    case Close(f) => s.(flights := s.flights[f := s.flights[f].(phase := Closed(s.flights[f].phase.outcome))])
    case Receive(c) =>
      var f := s.calls[c].answer.flight;
      s.(calls := s.calls[c := s.calls[c].(answer := Received(f, s.flights[f].phase.outcome))])
    case Leave(c) => s.(calls := s.calls - {c})
    case Tick(elapsed) => s.(now := s.now + elapsed)
  }

  ghost predicate Leads(s: State, steps: seq<Step>, t: State)
    decreases |steps|
  {
    if steps == [] then s == t else Enabled(s, steps[0]) && Leads(Apply(s, steps[0]), steps[1..], t)
  }

  // ---------------------------------------------------------------- the invariant

  /** A build in progress owns its key's entry. */
  predicate FlightSound(s: State, f: nat, flight: Flight)
  {
    && flight.entry in s.heap
    && (flight.phase.Building? ==>
        flight.key in s.entries && s.entries[flight.key] == flight.entry && s.heap[flight.entry].flight == Some(f))
  }

  predicate EntrySound(s: State, id: nat, e: Entry)
  {
    e.flight.Some? ==> InPhase(s, e.flight.value, Building) && s.flights[e.flight.value].entry == id
  }

  predicate CallSound(s: State, call: Call)
  {
    match call.answer
    case Cached(_, age) => age < MAX_STALE
    case Waiting(f) => f in s.flights && s.flights[f].key == call.key
    case Received(f, outcome) => InPhase(s, f, Closed(outcome)) && s.flights[f].key == call.key
  }

  ghost predicate Structure(s: State)
  {
    && Sound(s.entries, s.heap)
    && (forall f :: f in s.flights ==> FlightSound(s, f, s.flights[f]))
    && (forall id :: id in s.heap ==> EntrySound(s, id, s.heap[id]))
  }

  ghost predicate Inv(s: State)
  {
    Structure(s) && forall c :: c in s.calls ==> CallSound(s, s.calls[c])
  }

  /** What eviction leaves: every flight, every mapped entry with a flight, and nothing too old. */
  lemma EvictedEntry(s: State, key: string)
    requires Sound(s.entries, s.heap) && key in s.entries
    ensures var e, n := s.heap[s.entries[key]], Evicted(s);
            && n.heap[s.entries[key]] == Aged(e, s.now)
            && (key in n.entries <==> !Useless(Aged(e, s.now)))
            && (key in n.entries ==> n.entries[key] == s.entries[key])
  {
    assert Points(s.entries, s.entries.Keys, s.entries[key]);
  }

  lemma EvictedStructure(s: State)
    requires Structure(s)
    ensures Structure(Evicted(s))
    ensures forall key :: key in Evicted(s).entries ==> !Expired(Evicted(s).heap[Evicted(s).entries[key]], s.now)
  {
    var n := Evicted(s);
    forall key | key in n.entries
      ensures n.entries[key] in n.heap && !Expired(n.heap[n.entries[key]], s.now)
    {
      EvictedEntry(s, key);
    }
    forall f | f in n.flights ensures FlightSound(n, f, n.flights[f]) {
      assert FlightSound(s, f, s.flights[f]);
      if s.flights[f].phase.Building? { EvictedEntry(s, s.flights[f].key); }
    }
    forall id | id in n.heap ensures EntrySound(n, id, n.heap[id]) { assert EntrySound(s, id, s.heap[id]); }
  }

  lemma OpenedStructure(s: State, key: string, snapshot: Option<Stamped>, id: nat)
    requires Structure(s) && id !in s.heap
    requires forall k :: k in s.entries ==> !Expired(s.heap[s.entries[k]], s.now)
    ensures var n := Opened(s, key, snapshot, id);
            Structure(n) && key in n.entries && !Expired(n.heap[n.entries[key]], s.now)
  {
    var n := Opened(s, key, snapshot, id);
    forall f | f in n.flights ensures FlightSound(n, f, n.flights[f]) { assert FlightSound(s, f, s.flights[f]); }
    forall i | i in n.heap
      ensures EntrySound(n, i, n.heap[i])
    {
      if i in s.heap { assert EntrySound(s, i, s.heap[i]); }
    }
  }

  lemma LaunchedStructure(s: State, key: string, f: nat)
    requires Structure(s) && key in s.entries && f !in s.flights
    ensures var n := Launched(s, key, s.entries[key], f);
            Structure(n) && n.entries == s.entries && n.heap[s.entries[key]].flight.Some?
  {
    var n := Launched(s, key, s.entries[key], f);
    forall g | g in n.flights
      ensures FlightSound(n, g, n.flights[g])
    {
      if g in s.flights { assert FlightSound(s, g, s.flights[g]); }
    }
    forall i | i in n.heap
      ensures EntrySound(n, i, n.heap[i])
    {
      if i in s.heap { assert EntrySound(s, i, s.heap[i]); }
    }
  }

  /** A caller's flight is for its key, and it is the one in progress. */
  lemma EntryFlightKey(s: State, key: string)
    requires Structure(s) && key in s.entries && s.heap[s.entries[key]].flight.Some?
    ensures var f := s.heap[s.entries[key]].flight.value; InPhase(s, f, Building) && s.flights[f].key == key
  {
    assert EntrySound(s, s.entries[key], s.heap[s.entries[key]]);
    var f := s.heap[s.entries[key]].flight.value;
    assert FlightSound(s, f, s.flights[f]);
  }

  ghost predicate NoBuild(s: State, key: string)
  {
    forall g :: InPhase(s, g, Building) ==> s.flights[g].key != key
  }

  /** Asking: the structure holds, a reply is never too old, and a caller that must wait waits for the build in
      progress on its key; a build is started only when the key has none. */
  lemma AskStep(s: State, c: nat, key: string, snapshot: Option<Stamped>, id: nat, f: nat)
    requires Structure(s) && Enabled(s, Ask(c, key, snapshot, id, f))
    ensures var n := Asked(s, c, key, snapshot, id, f);
            && Structure(n) && CallSound(n, n.calls[c])
            && (n.calls[c].answer.Waiting? ==> InPhase(n, n.calls[c].answer.flight, Building))
            && (n.flights == s.flights
                || (NoBuild(s, key) && n.flights == s.flights[f := Flight(key, n.entries[key], Building)]))
  {
    EvictedStructure(s);
    OpenedStructure(Evicted(s), key, snapshot, id);
    var found := Opened(Evicted(s), key, snapshot, id);
    LaunchedStructure(found, key, f);
    var e := found.entries[key];
    var ready := if Fresh(found, e) then found else Launched(found, key, e, f);
    if ready.heap[e].flight.Some? { EntryFlightKey(ready, key); }
    SameStructure(ready, Asked(s, c, key, snapshot, id, f));
    if found.heap[e].flight.None? {
      forall g | InPhase(s, g, Building)
        ensures s.flights[g].key != key
      {
        assert FlightSound(found, g, found.flights[g]);
      }
    }
  }

  lemma SameStructure(s: State, n: State)
    requires Structure(s) && n.entries == s.entries && n.heap == s.heap && n.flights == s.flights
    ensures Structure(n)
  {
    forall f | f in n.flights ensures FlightSound(n, f, n.flights[f]) { assert FlightSound(s, f, s.flights[f]); }
    forall i | i in n.heap ensures EntrySound(n, i, n.heap[i]) { assert EntrySound(s, i, s.heap[i]); }
  }

  lemma CommitStructure(s: State, f: nat, outcome: Outcome, cost: int)
    requires Structure(s) && Enabled(s, Commit(f, outcome, cost))
    ensures Structure(Committing(s, f, outcome, cost))
  {
    var n := Committing(s, f, outcome, cost);
    assert FlightSound(s, f, s.flights[f]);
    forall g | g in n.flights ensures FlightSound(n, g, n.flights[g]) { assert FlightSound(s, g, s.flights[g]); }
    forall i | i in n.heap ensures EntrySound(n, i, n.heap[i]) { assert EntrySound(s, i, s.heap[i]); }
  }

  lemma CloseStructure(s: State, f: nat)
    requires Structure(s) && Enabled(s, Close(f))
    ensures Structure(Apply(s, Close(f)))
  {
    var n := Apply(s, Close(f));
    forall g | g in n.flights ensures FlightSound(n, g, n.flights[g]) { assert FlightSound(s, g, s.flights[g]); }
    forall i | i in n.heap ensures EntrySound(n, i, n.heap[i]) { assert EntrySound(s, i, s.heap[i]); }
  }

  /** A flight keeps its key, and once it has an outcome it keeps that too. */
  predicate Onward(a: Flight, b: Flight)
  {
    && a.key == b.key
    && (!a.phase.Building? ==> !b.phase.Building? && b.phase.outcome == a.phase.outcome)
    && (a.phase.Closed? ==> b.phase.Closed?)
  }

  lemma FlightsStep(s: State, step: Step, f: nat)
    requires Structure(s) && Enabled(s, step) && f in s.flights
    ensures f in Apply(s, step).flights && Onward(s.flights[f], Apply(s, step).flights[f])
  {
    if step.Ask? { AskStep(s, step.c, step.key, step.snapshot, step.id, step.f); }
  }

  lemma StructureStep(s: State, step: Step)
    requires Structure(s) && Enabled(s, step)
    ensures Structure(Apply(s, step))
  {
    match step
    case Ask(c, key, snapshot, id, f) => AskStep(s, c, key, snapshot, id, f);
    case Commit(f, outcome, cost) => CommitStructure(s, f, outcome, cost);
    case Close(f) => CloseStructure(s, f);
    case _ => SameStructure(s, Apply(s, step));
  }

  lemma CallStep(s: State, step: Step, c: nat)
    requires Inv(s) && Enabled(s, step) && c in Apply(s, step).calls
    ensures CallSound(Apply(s, step), Apply(s, step).calls[c])
  {
    if step.Ask? && step.c == c {
      AskStep(s, c, step.key, step.snapshot, step.id, step.f);
    } else {
      assert CallSound(s, s.calls[c]);
      if !s.calls[c].answer.Cached? { FlightsStep(s, step, s.calls[c].answer.flight); }
    }
  }

  lemma {:induction false} RunKeepsInv(s: State, steps: seq<Step>, t: State)
    requires Inv(s) && Leads(s, steps, t)
    ensures Inv(t)
    decreases |steps|
  {
    if steps != [] {
      var n := Apply(s, steps[0]);
      StructureStep(s, steps[0]);
      forall c | c in n.calls ensures CallSound(n, n.calls[c]) { CallStep(s, steps[0], c); }
      RunKeepsInv(n, steps[1..], t);
    }
  }

  // ---------------------------------------------------------------- the promises

  /** In every interleaving a key has at most one build in progress, and the map keeps the entry it is for. */
  lemma OneBuildPerKey(steps: seq<Step>, s: State, f: nat, g: nat)
    requires Leads(START, steps, s) && InPhase(s, f, Building) && InPhase(s, g, Building)
    ensures s.flights[f].key == s.flights[g].key ==> f == g
    ensures s.flights[f].key in s.entries && s.entries[s.flights[f].key] == s.flights[f].entry
  {
    RunKeepsInv(START, steps, s);
    assert FlightSound(s, f, s.flights[f]) && FlightSound(s, g, s.flights[g]);
  }

  /** No answer from the cache is six hours old. */
  lemma NoAnswerTooOld(steps: seq<Step>, s: State, c: nat)
    requires Leads(START, steps, s) && c in s.calls && s.calls[c].answer.Cached?
    ensures s.calls[c].answer.age < 21_600_000_000_000
  {
    RunKeepsInv(START, steps, s);
    assert CallSound(s, s.calls[c]);
  }

  lemma {:induction false} OutcomeStays(s: State, steps: seq<Step>, t: State, f: nat)
    requires Inv(s) && Leads(s, steps, t) && f in s.flights
    ensures f in t.flights && Onward(s.flights[f], t.flights[f])
    decreases |steps|
  {
    if steps != [] {
      var n := Apply(s, steps[0]);
      FlightsStep(s, steps[0], f);
      StructureStep(s, steps[0]);
      forall c | c in n.calls ensures CallSound(n, n.calls[c]) { CallStep(s, steps[0], c); }
      OutcomeStays(n, steps[1..], t, f);
    }
  }

  /** Whoever waits for a build of a key receives that build's outcome, however many wait and whenever they
      receive it: the outcome committed at `mid` is what a caller has received at `t`. */
  lemma WaitersReceiveTheBuild(before: seq<Step>, mid: State, after: seq<Step>, t: State, c: nat, f: nat,
                               outcome: Outcome)
    requires Leads(START, before, mid) && InPhase(mid, f, Committed(outcome)) && Leads(mid, after, t)
    requires c in t.calls && t.calls[c].answer.Received? && t.calls[c].answer.flight == f
    ensures t.calls[c].answer.outcome == outcome && mid.flights[f].key == t.calls[c].key
  {
    RunKeepsInv(START, before, mid);
    RunKeepsInv(mid, after, t);
    OutcomeStays(mid, after, t, f);
    assert CallSound(t, t.calls[c]);
  }
}

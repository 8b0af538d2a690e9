/** Where the comparison cache's answers come from, read from the steps of a run. */
module ComparisonHistory {
  import opened Basics
  import opened ComparisonCache

  /** The value kept for a key. */
  function CachedFor(s: State, key: string): Option<Stamped>
  {
    if key in s.entries && s.entries[key] in s.heap then s.heap[s.entries[key]].cached else None
  }

  /** A value younger than six hours. */
  function Young(x: Option<Stamped>, now: int): Option<Stamped>
  {
    if x.Some? && now - x.value.at < 21_600_000_000_000 then x else None
  }

  // ---------------------------------------------------------------- a build ends

  function KeptAfter(before: Option<Stamped>, outcome: Outcome, cost: int, now: int): Option<Stamped>
  {
    if outcome.Failed? then before
    else if outcome.Built? && cost >= 1_000_000_000 then Some(Stamped(outcome.value, now))
    else None
  }

  /** A build that took a second or more leaves its value, a failed one what was there before, any other nothing; and
      the values of other keys stay. */
  lemma CommitKeeps(s: State, f: nat, outcome: Outcome, cost: int, key: string)
    requires Structure(s) && Enabled(s, Commit(f, outcome, cost))
    ensures CachedFor(Apply(s, Commit(f, outcome, cost)), key)
            == if key == s.flights[f].key then KeptAfter(CachedFor(s, key), outcome, cost, s.now) else CachedFor(s, key)
  {
    assert FlightSound(s, f, s.flights[f]);
  }

  // ---------------------------------------------------------------- a caller asks

  /** What a caller can be given at once: the value kept if it is young, or the stored snapshot where the key has
      neither a young value nor a build. */
  function OnHand(s: State, key: string, snapshot: Option<Stamped>): Option<Stamped>
  {
    if Young(CachedFor(s, key), s.now).Some? then Young(CachedFor(s, key), s.now)
    else if key in s.entries && s.entries[key] in s.heap && s.heap[s.entries[key]].flight.Some? then None
    else Young(snapshot, s.now)
  }

  lemma EvictedKeeps(s: State, key: string)
    requires Structure(s)
    ensures CachedFor(Evicted(s), key) == Young(CachedFor(s, key), s.now)
    ensures key in Evicted(s).entries <==>
              key in s.entries && (Young(CachedFor(s, key), s.now).Some? || s.heap[s.entries[key]].flight.Some?)
    ensures key in Evicted(s).entries ==> Evicted(s).heap[s.entries[key]].flight == s.heap[s.entries[key]].flight
  {
    if key in s.entries { EvictedEntry(s, key); }
  }

  /** Opening an entry puts the snapshot into it if the key had none. */
  lemma OpenedKeeps(s: State, key: string, snapshot: Option<Stamped>, id: nat, other: string)
    requires Structure(s) && id !in s.heap
    ensures var n := Opened(s, key, snapshot, id);
            CachedFor(n, other)
            == if other == key && key !in s.entries then Young(snapshot, s.now) else CachedFor(s, other)
  {
  }

  lemma LaunchedKeeps(s: State, key: string, f: nat, other: string)
    requires Structure(s) && key in s.entries
    ensures CachedFor(Launched(s, key, s.entries[key], f), other) == CachedFor(s, other)
  {
  }

  lemma AskedKeeps(s: State, c: nat, key: string, snapshot: Option<Stamped>, id: nat, f: nat, other: string)
    requires Structure(s) && Enabled(s, Ask(c, key, snapshot, id, f))
    ensures CachedFor(Asked(s, c, key, snapshot, id, f), other)
            == if other == key then OnHand(s, key, snapshot) else Young(CachedFor(s, other), s.now)
  {
    EvictedStructure(s);
    EvictedKeeps(s, key);
    EvictedKeeps(s, other);
    OpenedKeeps(Evicted(s), key, snapshot, id, other);
    OpenedStructure(Evicted(s), key, snapshot, id);
    LaunchedKeeps(Opened(Evicted(s), key, snapshot, id), key, f, other);
  }

  /** A caller gets what is on hand, with its age, at once, and otherwise waits for a build of its key; a build starts
      exactly when nothing younger than ten minutes is on hand and the key has none. */
  lemma AskAnswers(s: State, c: nat, key: string, snapshot: Option<Stamped>, id: nat, f: nat)
    requires Structure(s) && Enabled(s, Ask(c, key, snapshot, id, f))
    ensures var n, have := Asked(s, c, key, snapshot, id, f), OnHand(s, key, snapshot);
            && c in n.calls && n.calls[c].key == key
            && (have.Some? ==> n.calls[c].answer == Cached(have.value.value, s.now - have.value.at))
            && (have.None? ==> n.calls[c].answer.Waiting? && InPhase(n, n.calls[c].answer.flight, Building)
                               && n.flights[n.calls[c].answer.flight].key == key)
            && (f in n.flights <==>
                  (have.None? || s.now - have.value.at >= 600_000_000_000) && NoBuild(s, key))
  {
    AskStep(s, c, key, snapshot, id, f);
    AskedKeeps(s, c, key, snapshot, id, f, key);
  }

  /** Nobody waits for nothing: a build in progress can end in any way, what it ended with can be handed over, and a
      caller can then receive it. */
  lemma BuildsCanEnd(s: State, f: nat, outcome: Outcome, cost: int)
    requires Structure(s) && f in s.flights
    ensures InPhase(s, f, Building) ==> Enabled(s, Commit(f, outcome, cost))
    ensures InPhase(s, f, Committed(outcome)) ==>
              Enabled(s, Close(f)) && InPhase(Apply(s, Close(f)), f, Closed(outcome))
    ensures InPhase(s, f, Closed(outcome)) ==>
              forall c :: Waits(s, c) && s.calls[c].answer.flight == f ==>
                Enabled(s, Receive(c)) && Apply(s, Receive(c)).calls[c].answer == Received(f, outcome)
  {
    assert FlightSound(s, f, s.flights[f]);
  }

  /** Time passes and callers leave without touching anything else. */
  lemma TimePasses(s: State, elapsed: nat, c: nat)
    ensures Apply(s, Tick(elapsed)) == s.(now := s.now + elapsed)
    ensures Waits(s, c) ==> Apply(s, Leave(c)) == s.(calls := s.calls - {c})
  {
  }

  // ---------------------------------------------------------------- runs

  ghost predicate Moves(states: seq<State>, steps: seq<Step>, i: nat)
  {
    i < |steps| && i + 1 < |states| && Enabled(states[i], steps[i]) && states[i + 1] == Apply(states[i], steps[i])
  }

  /** The steps, with the state before each of them and the one they end in. */
  ghost predicate Run(states: seq<State>, steps: seq<Step>)
  {
    |states| == |steps| + 1 && states[0] == START && forall i: nat :: i < |steps| ==> Moves(states, steps, i)
  }

  lemma {:induction false} RunInv(states: seq<State>, steps: seq<Step>, n: nat)
    requires Run(states, steps) && n <= |steps|
    ensures Inv(states[n])
  {
    if n > 0 {
      RunInv(states, steps, n - 1);
      assert Moves(states, steps, n - 1);
      StructureStep(states[n - 1], steps[n - 1]);
      forall c | c in states[n].calls ensures CallSound(states[n], states[n].calls[c]) {
        CallStep(states[n - 1], steps[n - 1], c);
      }
    }
  }

  /** At step `m` a build of this key that took a second or more ended with the value, at the time it is stamped with,
      or the value was loaded for the key as a stored snapshot with that stamp. */
  ghost predicate MadeAt(states: seq<State>, steps: seq<Step>, m: nat, key: string, st: Stamped)
  {
    && m < |steps| < |states|
    && match steps[m]
       case Commit(f, outcome, cost) =>
         && f in states[m].flights && states[m].flights[f].key == key && outcome == Built(st.value)
         && cost >= 1_000_000_000 && states[m].now == st.at
       case Ask(_, asked, snapshot, _, _) => asked == key && snapshot == Some(st)
       case _ => false
  }

  ghost predicate Made(states: seq<State>, steps: seq<Step>, n: nat, key: string, st: Stamped)
  {
    exists m: nat :: m < n && MadeAt(states, steps, m, key, st)
  }

  /** Where a value that is kept after a step was before it. */
  lemma KeptComesFrom(s: State, step: Step, key: string, st: Stamped)
    requires Structure(s) && Enabled(s, step) && CachedFor(Apply(s, step), key) == Some(st)
    ensures || CachedFor(s, key) == Some(st)
            || (step.Ask? && step.key == key && step.snapshot == Some(st))
            || (step.Commit? && s.flights[step.f].key == key && step.outcome == Built(st.value)
                && step.cost >= 1_000_000_000 && s.now == st.at)
  {
    match step
    case Ask(c, asked, snapshot, id, f) => AskedKeeps(s, c, asked, snapshot, id, f, key);
    case Commit(f, outcome, cost) => CommitKeeps(s, f, outcome, cost, key);
    case _ =>
  }

  lemma {:induction false} KeptWasMade(states: seq<State>, steps: seq<Step>, n: nat, key: string, st: Stamped)
    requires Run(states, steps) && n <= |steps| && CachedFor(states[n], key) == Some(st)
    ensures Made(states, steps, n, key, st)
  {
    if n > 0 {
      var last := n - 1;
      assert Moves(states, steps, last);
      RunInv(states, steps, last);
      KeptComesFrom(states[last], steps[last], key, st);
      if CachedFor(states[last], key) == Some(st) {
        KeptWasMade(states, steps, last, key, st);
        var m: nat :| m < last && MadeAt(states, steps, m, key, st);
        assert MadeAt(states, steps, m, key, st);
      } else {
        assert MadeAt(states, steps, last, key, st);
      }
    }
  }

  /** In every run each answer from the cache is a value that a build of that very key ended with, or that was loaded
      for it as a snapshot, exactly as long ago as the answer says, and less than six hours. */
  lemma AnswersComeFromBuilds(states: seq<State>, steps: seq<Step>, n: nat)
    requires Run(states, steps) && n < |steps| && steps[n].Ask?
    requires steps[n].c in states[n + 1].calls && states[n + 1].calls[steps[n].c].answer.Cached?
    ensures var answer, now := states[n + 1].calls[steps[n].c].answer, states[n].now;
            && Made(states, steps, n + 1, steps[n].key, Stamped(answer.value, now - answer.age))
            && answer.age < 21_600_000_000_000
  {
    var s, step := states[n], steps[n];
    assert Moves(states, steps, n);
    RunInv(states, steps, n);
    AskAnswers(s, step.c, step.key, step.snapshot, step.id, step.f);
    AskedKeeps(s, step.c, step.key, step.snapshot, step.id, step.f, step.key);
    KeptWasMade(states, steps, n + 1, step.key, OnHand(s, step.key, step.snapshot).value);
  }

  ghost predicate CommitsAt(states: seq<State>, steps: seq<Step>, m: nat, f: nat, key: string, outcome: Outcome,
                            cost: int)
  {
    && m < |steps| < |states| && steps[m] == Commit(f, outcome, cost)
    && f in states[m].flights && states[m].flights[f].key == key
  }

  /** A flight with an outcome committed it. */
  lemma {:induction false} OutcomeWasCommitted(states: seq<State>, steps: seq<Step>, n: nat, f: nat)
    requires Run(states, steps) && n <= |steps| && f in states[n].flights && !states[n].flights[f].phase.Building?
    ensures var flight := states[n].flights[f];
            exists m: nat, cost :: m < n && CommitsAt(states, steps, m, f, flight.key, flight.phase.outcome, cost)
  {
    if n > 0 {
      var last := n - 1;
      var flight := states[n].flights[f];
      assert Moves(states, steps, last);
      RunInv(states, steps, last);
      OutcomeComesFrom(states[last], steps[last], f);
      if f in states[last].flights && !states[last].flights[f].phase.Building? {
        OutcomeWasCommitted(states, steps, last, f);
        var m: nat, cost :| m < last && CommitsAt(states, steps, m, f, flight.key, flight.phase.outcome, cost);
        assert CommitsAt(states, steps, m, f, flight.key, flight.phase.outcome, cost);
      } else {
        assert CommitsAt(states, steps, last, f, flight.key, flight.phase.outcome, steps[last].cost);
      }
    }
  }

  lemma OutcomeComesFrom(s: State, step: Step, f: nat)
    requires Structure(s) && Enabled(s, step) && f in Apply(s, step).flights
    requires !Apply(s, step).flights[f].phase.Building?
    ensures var flight := Apply(s, step).flights[f];
            && f in s.flights && s.flights[f].key == flight.key
            && (s.flights[f].phase.Building? ==> step.Commit? && step.f == f && step.outcome == flight.phase.outcome)
            && (!s.flights[f].phase.Building? ==> s.flights[f].phase.outcome == flight.phase.outcome)
  {
    if step.Ask? { AskStep(s, step.c, step.key, step.snapshot, step.id, step.f); }
  }

  /** And a caller that waited receives what the build of its key it waited for ended with. */
  lemma WaitersReceiveTheirBuild(states: seq<State>, steps: seq<Step>, n: nat, c: nat)
    requires Run(states, steps) && n <= |steps| && c in states[n].calls && states[n].calls[c].answer.Received?
    ensures var call := states[n].calls[c];
            exists m: nat, cost :: m < n &&
              CommitsAt(states, steps, m, call.answer.flight, call.key, call.answer.outcome, cost)
  {
    RunInv(states, steps, n);
    assert CallSound(states[n], states[n].calls[c]);
    OutcomeWasCommitted(states, steps, n, states[n].calls[c].answer.flight);
  }
}

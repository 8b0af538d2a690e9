/** Pausing the churn engine: workers that receive operations and apply them, callers that pause and resume, in
    any interleaving. Each critical section is a step, and so are the start and end of an Apply. */
module ChurnEngine {

  /** `active` is the engine's counter. Workers hold a received operation, are counted as active, and among
      those are inside Apply. */
  datatype State = State(paused: bool, cancelled: bool, active: nat,
                         holding: set<nat>, busy: set<nat>, applying: set<nat>, pausing: set<nat>)

  const STARTED := State(false, false, 0, {}, {}, {}, {})

  datatype Step =
    | Receive(w: nat)
    | Enter(w: nat)         // under the lock: drop the operation, or count the worker and start Apply
    | Finish(w: nat)        // Apply returns
    | Uncount(w: nat)
    | Pause(p: nat)
    | PauseReturns(p: nat)  // a poll that sees no active worker
    | PauseFails(p: nat)    // its context ended
    | Resume
    | Cancel

  predicate Enabled(s: State, step: Step)
  {
    match step
    case Receive(w) => !s.cancelled && w !in s.holding && w !in s.busy
    case Enter(w) => w in s.holding
    case Finish(w) => w in s.applying
    case Uncount(w) => w in s.busy && w !in s.applying && s.active > 0
    case Pause(p) => p !in s.pausing
    case PauseReturns(p) => p in s.pausing && s.active == 0
    case PauseFails(p) => p in s.pausing
    case Resume => true
    case Cancel => true
  }

  function Apply(s: State, step: Step): State
    requires Enabled(s, step)
  {
    match step
    case Receive(w) => s.(holding := s.holding + {w})
    case Enter(w) =>
      var dropped := s.(holding := s.holding - {w});
      if s.paused || s.cancelled then dropped
      else dropped.(active := s.active + 1, busy := s.busy + {w}, applying := s.applying + {w})
    case Finish(w) => s.(applying := s.applying - {w})
    case Uncount(w) => s.(active := s.active - 1, busy := s.busy - {w})
    case Pause(p) => s.(paused := true, pausing := s.pausing + {p})
    case PauseReturns(p) => s.(pausing := s.pausing - {p})
    case PauseFails(p) => s.(pausing := s.pausing - {p})
    case Resume => s.(paused := false)
    case Cancel => s.(cancelled := true)
  }

  ghost predicate Leads(s: State, steps: seq<Step>, t: State)
    decreases |steps|
  {
    if steps == [] then s == t else Enabled(s, steps[0]) && Leads(Apply(s, steps[0]), steps[1..], t)
  }

  /** The counter counts the busy workers. */
  ghost predicate Inv(s: State)
  {
    s.active == |s.busy| && s.applying <= s.busy && s.holding !! s.busy
  }

  lemma StepKeepsInv(s: State, step: Step)
    requires Inv(s) && Enabled(s, step)
    ensures Inv(Apply(s, step))
  {
  }

  lemma {:induction false} RunKeepsInv(s: State, steps: seq<Step>, t: State)
    requires Inv(s) && Leads(s, steps, t)
    ensures Inv(t)
    decreases |steps|
  {
    if steps != [] {
      StepKeepsInv(s, steps[0]);
      RunKeepsInv(Apply(s, steps[0]), steps[1..], t);
    }
  }

  lemma {:induction false} PausedStaysIdle(s: State, steps: seq<Step>, t: State)
    requires Inv(s) && s.paused && s.busy == {} && Leads(s, steps, t) && Resume !in steps
    ensures t.paused && t.busy == {} && t.applying == {}
    decreases |steps|
  {
    if steps != [] {
      assert steps[0] in steps;
      assert forall step :: step in steps[1..] ==> step in steps;
      StepKeepsInv(s, steps[0]);
      PausedStaysIdle(Apply(s, steps[0]), steps[1..], t);
    }
  }

  lemma {:induction false} PausedStays(s: State, steps: seq<Step>, t: State)
    requires s.paused && Leads(s, steps, t) && Resume !in steps
    ensures t.paused
    decreases |steps|
  {
    if steps != [] {
      assert steps[0] in steps;
      assert forall step :: step in steps[1..] ==> step in steps;
      PausedStays(Apply(s, steps[0]), steps[1..], t);
    }
  }

  /** From a Pause to its return without error, and on, with no Resume since it began: no Apply is running when it
      returns and none starts until a Resume, for any number of workers and any schedule. */
  lemma PauseStopsTheEngine(before: seq<Step>, r: State, p: nat, during: seq<Step>, s: State, after: seq<Step>,
                            t: State)
    requires Leads(STARTED, before, r) && Enabled(r, Pause(p))
    requires Leads(Apply(r, Pause(p)), during, s) && Resume !in during && Enabled(s, PauseReturns(p))
    requires Leads(Apply(s, PauseReturns(p)), after, t) && Resume !in after
    ensures s.applying == {} && t.applying == {}
  {
    RunKeepsInv(STARTED, before, r);
    StepKeepsInv(r, Pause(p));
    RunKeepsInv(Apply(r, Pause(p)), during, s);
    PausedStays(Apply(r, Pause(p)), during, s);
    StepKeepsInv(s, PauseReturns(p));
    PausedStaysIdle(Apply(s, PauseReturns(p)), after, t);
  }

  /** A pausing caller can return exactly when no worker is counted as active. */
  lemma PauseReturnsExactlyWhenIdle(before: seq<Step>, s: State, p: nat)
    requires Leads(STARTED, before, s) && p in s.pausing
    ensures Enabled(s, PauseReturns(p)) <==> s.busy == {}
  {
    RunKeepsInv(STARTED, before, s);
  }

  /** Once the engine is cancelled no Apply starts any more. */
  lemma {:induction false} CancelStopsTheEngine(s: State, steps: seq<Step>, t: State)
    requires s.cancelled && Leads(s, steps, t)
    ensures t.cancelled && t.applying <= s.applying
    decreases |steps|
  {
    if steps != [] { CancelStopsTheEngine(Apply(s, steps[0]), steps[1..], t); }
  }

  /** The condition is exact: when a Pause returns in an engine that is running, no Apply runs at that moment,
      and whether one can start before the next Resume is whether the engine is still paused. */
  lemma PauseHoldsExactlyWhilePaused(before: seq<Step>, s: State, p: nat)
    requires Leads(STARTED, before, s) && Enabled(s, PauseReturns(p)) && !s.cancelled
    ensures s.applying == {}
    ensures (forall after, t :: Leads(Apply(s, PauseReturns(p)), after, t) && Resume !in after ==>
        t.applying == {}) <==> s.paused
  {
    RunKeepsInv(STARTED, before, s);
    StepKeepsInv(s, PauseReturns(p));
    var n := Apply(s, PauseReturns(p));
    if s.paused {
      forall after, t | Leads(n, after, t) && Resume !in after
        ensures t.applying == {}
      {
        PausedStaysIdle(n, after, t);
      }
    } else {
      var after, t := CanApply(n);
      assert Leads(n, after, t) && Resume !in after && t.applying != {};
    }
  }

  /** A running engine with nobody busy can start an Apply. */
  lemma CanApply(s: State) returns (steps: seq<Step>, t: State)
    requires Inv(s) && !s.paused && !s.cancelled && s.busy == {}
    ensures Leads(s, steps, t) && Resume !in steps && t.applying != {}
  {
    var w := 0;
    var enter := Enter(w);
    if w in s.holding {
      steps, t := [enter], Apply(s, enter);
      assert [enter][1..] == [];
    } else {
      var received := Apply(s, Receive(w));
      steps, t := [Receive(w), enter], Apply(received, enter);
      assert steps[1..] == [enter] && [enter][1..] == [];
      assert Leads(received, [enter], t);
    }
    assert w in t.applying;
  }

  /** A Resume that comes while a Pause is polling is not seen by it: the Pause returns, and work goes on. */
  lemma ResumeDuringPauseIsMissed(p: nat) returns (steps: seq<Step>, s: State)
    ensures Leads(STARTED, steps, s) && Enabled(s, PauseReturns(p)) && !s.paused
  {
    var paused := Apply(STARTED, Pause(p));
    steps, s := [Pause(p), Resume], Apply(paused, Resume);
    assert steps[1..] == [Resume] && [Resume][1..] == [];
    assert Leads(paused, [Resume], s);
  }
}

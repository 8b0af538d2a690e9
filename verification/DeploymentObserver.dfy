/** The coalescing deployment observer: requests mark sources pending, one runner takes all of them at a time,
    refreshes, and puts them back when the refresh fails. Each critical section is a step. */
module DeploymentObserver {

  datatype Phase = Looping | Refreshing(sources: set<string>)

  /** `done` is the channel the runner will close, named by its runner; `closed` counts closes. */
  datatype State = State(
    pending: set<string>, running: bool, cancelled: bool, done: nat, started: nat,
    runners: map<nat, Phase>, closed: map<nat, nat>)

  const IDLE := State({}, false, false, 0, 0, map[], map[])

  datatype Step =
    | Request(source: string)
    | Wait(k: nat)                 // the interval since the last refresh has not passed
    | Take(k: nat)                 // a runner takes every pending source
    | Finish(k: nat, ok: bool)     // its refresh returns
    | Stop(k: nat)                 // it finds nothing pending, or the observer cancelled
    | Cancel

  predicate Loops(s: State, k: nat)
  {
    k in s.runners && s.runners[k].Looping?
  }

  predicate Enabled(s: State, step: Step)
  {
    match step
    case Request(_) => true
    case Wait(k) => Loops(s, k) && !s.cancelled && s.pending != {}
    case Take(k) => Loops(s, k) && !s.cancelled && s.pending != {}
    case Finish(k, ok) => k in s.runners && s.runners[k].Refreshing?
    case Stop(k) => Loops(s, k) && (s.cancelled || s.pending == {})
    case Cancel => true
  }

  function Requested(s: State, source: string): State
  {
    if s.cancelled then s
    else
      var noted := s.(pending := s.pending + {source});
      if s.running then noted
      else noted.(running := true, started := s.started + 1, done := s.started,
          runners := s.runners[s.started := Looping])
  }

  function Count(closed: map<nat, nat>, k: nat): nat
  {
    if k in closed then closed[k] else 0
  }

  function Finished(s: State, k: nat, ok: bool): State
    requires k in s.runners && s.runners[k].Refreshing?
  {
    var looping := s.(runners := s.runners[k := Looping]);
    if ok || s.cancelled then looping else looping.(pending := s.pending + s.runners[k].sources)
  }

  function Apply(s: State, step: Step): State
    requires Enabled(s, step)
  {
    match step
    case Request(source) => Requested(s, source)
    case Wait(k) => s
    case Take(k) => s.(runners := s.runners[k := Refreshing(s.pending)], pending := {})
    case Finish(k, ok) => Finished(s, k, ok)
    case Stop(k) =>
      s.(pending := {}, running := false, runners := s.runners - {k},
          closed := s.closed[s.done := Count(s.closed, s.done) + 1])
    case Cancel => s.(cancelled := true)
  }

  // ---------------------------------------------------------------- runs

  ghost predicate Moves(states: seq<State>, steps: seq<Step>, i: nat)
  {
    i < |steps| && i + 1 < |states| && Enabled(states[i], steps[i]) && states[i + 1] == Apply(states[i], steps[i])
  }

  /** The steps, with the state before each of them and the one they end in. */
  ghost predicate Run(states: seq<State>, steps: seq<Step>)
  {
    |states| == |steps| + 1 && states[0] == IDLE && forall i: nat :: i < |steps| ==> Moves(states, steps, i)
  }

  /** The one runner, if any, is the last one started; it owns `done`, which it alone will close. */
  ghost predicate Runners(s: State)
  {
    && (s.running <==> s.done in s.runners)
    && (forall k :: k in s.runners ==> k == s.done && k + 1 == s.started && k !in s.closed)
    && (forall k :: k in s.closed ==> k < s.started && s.closed[k] == 1)
    && (forall k: nat :: k < s.started ==> k in s.closed || k in s.runners)
    && (s.pending != {} && !s.cancelled ==> s.running)
  }

  lemma RunnersStep(s: State, step: Step)
    requires Runners(s) && Enabled(s, step)
    ensures Runners(Apply(s, step))
  {
  }

  lemma {:induction false} RunKeepsInv(states: seq<State>, steps: seq<Step>, n: nat)
    requires Run(states, steps) && n <= |steps|
    ensures Runners(states[n])
  {
    if n > 0 {
      RunKeepsInv(states, steps, n - 1);
      assert Moves(states, steps, n - 1);
      RunnersStep(states[n - 1], steps[n - 1]);
    }
  }

  // ---------------------------------------------------------------- requests

  /** Runner `k` took the source at step `j` and has not returned from that refresh before step `n`. */
  ghost predicate Working(states: seq<State>, steps: seq<Step>, j: nat, n: nat, source: string)
  {
    && j < n <= |steps| < |states| && steps[j].Take? && steps[j].k in states[j + 1].runners
    && states[j + 1].runners[steps[j].k].Refreshing? && source in states[j + 1].runners[steps[j].k].sources
    && forall m :: j < m < n ==> !steps[m].Finish? || steps[m].k != steps[j].k
  }

  /** The source is in a refresh that was taken after step `i` and goes on. */
  ghost predicate InRefresh(states: seq<State>, steps: seq<Step>, i: nat, n: nat, source: string)
  {
    exists j: nat :: i < j && Working(states, steps, j, n, source)
  }

  /** The refresh taken at `j` returned without error at `m`. */
  ghost predicate Succeeds(states: seq<State>, steps: seq<Step>, j: nat, m: nat, source: string)
  {
    m < |steps| && Working(states, steps, j, m, source) && steps[m] == Finish(steps[j].k, true)
  }

  /** A refresh taken after step `i` has returned without error. */
  ghost predicate Served(states: seq<State>, steps: seq<Step>, i: nat, n: nat, source: string)
  {
    exists j: nat, m: nat :: i < j && m < n && Succeeds(states, steps, j, m, source)
  }

  ghost predicate Covered(states: seq<State>, steps: seq<Step>, i: nat, n: nat, source: string)
    requires n < |states|
  {
    source in states[n].pending || InRefresh(states, steps, i, n, source) || Served(states, steps, i, n, source)
  }

  /** While it works, the runner holds what it took. */
  lemma {:induction false} WorkingHolds(states: seq<State>, steps: seq<Step>, j: nat, n: nat, source: string)
    requires Run(states, steps) && Working(states, steps, j, n, source)
    ensures steps[j].k in states[n].runners && states[n].runners[steps[j].k] == states[j + 1].runners[steps[j].k]
    decreases n
  {
    if n > j + 1 {
      assert Working(states, steps, j, n - 1, source);
      WorkingHolds(states, steps, j, n - 1, source);
      assert Moves(states, steps, n - 1);
      RunKeepsInv(states, steps, n - 1);
    }
  }

  /** Pending stays pending, or a runner takes it. */
  lemma PendingNext(states: seq<State>, steps: seq<Step>, i: nat, n: nat, source: string)
    requires Run(states, steps) && i < n < |steps| && !states[n + 1].cancelled && source in states[n].pending
    ensures Covered(states, steps, i, n + 1, source)
  {
    assert Moves(states, steps, n);
    if steps[n].Take? { assert Working(states, steps, n, n + 1, source); }
  }

  /** A refresh goes on, succeeds, or puts its sources back. */
  lemma RefreshNext(states: seq<State>, steps: seq<Step>, i: nat, j: nat, n: nat, source: string)
    requires Run(states, steps) && i < j && n < |steps| && !states[n + 1].cancelled
    requires Working(states, steps, j, n, source)
    ensures Covered(states, steps, i, n + 1, source)
  {
    assert Moves(states, steps, n);
    WorkingHolds(states, steps, j, n, source);
    if steps[n] == Finish(steps[j].k, true) {
      assert Succeeds(states, steps, j, n, source);
    } else if steps[n] != Finish(steps[j].k, false) {
      assert Working(states, steps, j, n + 1, source);
    }
  }

  lemma {:induction false} RequestCovered(states: seq<State>, steps: seq<Step>, i: nat, n: nat, source: string)
    requires Run(states, steps) && i < n <= |steps| && !states[n].cancelled && steps[i] == Request(source)
    ensures Covered(states, steps, i, n, source)
    decreases n
  {
    var last := n - 1;
    assert Moves(states, steps, last);
    if i < last {
      RequestCovered(states, steps, i, last, source);
      if source in states[last].pending {
        PendingNext(states, steps, i, last, source);
      } else if j: nat :| i < j && Working(states, steps, j, last, source) {
        RefreshNext(states, steps, i, j, last, source);
      }
    }
  }

  // ---------------------------------------------------------------- the promise

  /** A runner never sticks: between refreshes it takes what is pending, or stops exactly when nothing is or the
      observer is cancelled; out of a refresh it can return either way. */
  lemma RunnersGoOn(s: State, k: nat)
    requires k in s.runners
    ensures s.runners[k].Looping? ==> (Enabled(s, Take(k)) <==> !s.cancelled && s.pending != {})
    ensures s.runners[k].Looping? ==> (Enabled(s, Stop(k)) <==> !Enabled(s, Take(k)))
    ensures s.runners[k].Refreshing? ==> Enabled(s, Finish(k, true)) && Enabled(s, Finish(k, false))
  {
  }

  /** A runner can take what is pending, or will be back from its refresh. */
  ghost predicate Attended(s: State)
  {
    exists k :: k in s.runners && (s.runners[k].Refreshing? || Enabled(s, Take(k)))
  }

  /** In every run that was not cancelled, every request, at whatever step it came, is pending with a runner to take
      it, is in a refresh that was taken later, or was served by one that was. */
  lemma NoRequestIsLost(states: seq<State>, steps: seq<Step>, i: nat, source: string)
    requires Run(states, steps) && !states[|steps|].cancelled && i < |steps| && steps[i] == Request(source)
    ensures || (source in states[|steps|].pending && Attended(states[|steps|]))
            || InRefresh(states, steps, i, |steps|, source)
            || Served(states, steps, i, |steps|, source)
  {
    RequestCovered(states, steps, i, |steps|, source);
    RunKeepsInv(states, steps, |steps|);
    assert source in states[|steps|].pending ==> states[|steps|].done in states[|steps|].runners;
  }

  /** In every run there is at most one runner, and each runner that ended closed its own channel exactly once. */
  lemma OneRunnerClosesOnce(states: seq<State>, steps: seq<Step>)
    requires Run(states, steps)
    ensures var s := states[|steps|];
            && (forall j, k :: j in s.runners && k in s.runners ==> j == k)
            && (forall k: nat :: k < s.started ==> Count(s.closed, k) == if k in s.runners then 0 else 1)
            && (forall k: nat :: k >= s.started ==> Count(s.closed, k) == 0)
  {
    RunKeepsInv(states, steps, |steps|);
  }

  /** Once the runner is gone nothing is owed: every request was served by a refresh taken after it. */
  lemma QuietMeansServed(states: seq<State>, steps: seq<Step>, i: nat, source: string)
    requires Run(states, steps) && !states[|steps|].cancelled && states[|steps|].runners == map[]
    requires i < |steps| && steps[i] == Request(source)
    ensures Served(states, steps, i, |steps|, source)
  {
    RequestCovered(states, steps, i, |steps|, source);
    RunKeepsInv(states, steps, |steps|);
    if j: nat :| i < j && Working(states, steps, j, |steps|, source) {
      WorkingHolds(states, steps, j, |steps|, source);
      assert false;
    }
  }
}

/** Whole runs of the rollout protocol, read from their steps: what was recorded, what a restart resumes, and what was
    rolled out or found superseded. */
module RolloutHistory {
  import opened Basics
  import opened Deployments
  import opened Rollout

  // ---------------------------------------------------------------- a restart

  /** A task that has yet to roll out what the row holds. */
  predicate Carries(task: Task, id: nat, row: Row)
  {
    task == Task(Target(id, row.gen, row.version.source, row.version.git, row.version.litestream, row.image), Waiting)
  }

  /** A restart starts a task for every ready pending row, with the row's generation, source, SHAs and image, and no
      other; running tasks and all rows stay as they are. */
  lemma RestartResumes(s: State, boot: nat)
    requires Enabled(s, Restart(boot))
    ensures var n := Apply(s, Restart(boot));
            && n.rows == s.rows
            && (forall id :: id in s.rows && s.rows[id].status.Ready? && s.rows[id].pending ==>
                  Resumed(boot, id) in n.tasks && Carries(n.tasks[Resumed(boot, id)], id, s.rows[id]))
            && (forall k :: k in s.tasks ==> k in n.tasks && n.tasks[k] == s.tasks[k])
            && (forall k :: k in n.tasks && k !in s.tasks ==>
                  k.Resumed? && k.boot == boot && k.id in s.rows && s.rows[k.id].status.Ready? && s.rows[k.id].pending)
  {
    forall id | id in s.rows && s.rows[id].status.Ready? && s.rows[id].pending
      ensures Resumed(boot, id) in ResumedTasks(s.rows, boot)
    {
      assert Resumable(s.rows, id);
    }
  }

  /** So the new tasks are those of the list that is read at a restart, one for each entry. */
  lemma RestartTakesTheList(s: State, boot: nat, list: seq<Target>)
    requires Enabled(s, Restart(boot)) && IsPendingList(s.rows, list)
    ensures var n := Apply(s, Restart(boot));
            && (forall i :: 0 <= i < |list| ==>
                  Resumed(boot, list[i].id) in n.tasks && n.tasks[Resumed(boot, list[i].id)] == Task(list[i], Waiting))
            && (forall k :: k in n.tasks && k !in s.tasks ==>
                  exists i :: 0 <= i < |list| && k == Resumed(boot, list[i].id))
  {
    RestartResumes(s, boot);
    var n := Apply(s, Restart(boot));
    forall k | k in n.tasks && k !in s.tasks ensures exists i :: 0 <= i < |list| && k == Resumed(boot, list[i].id) {
      assert Resumable(s.rows, k.id);
      var i :| 0 <= i < |list| && list[i].id == k.id;
    }
  }

  /** Whichever restart comes next starts a rollout of what the row holds. */
  ghost predicate ResumedByRestart(s: State, id: nat)
    requires id in s.rows
  {
    forall boot :: Enabled(s, Restart(boot)) ==> Resumes(s, boot, id)
  }

  ghost predicate Resumes(s: State, boot: nat, id: nat)
    requires id in s.rows && Enabled(s, Restart(boot))
  {
    var n := Apply(s, Restart(boot));
    Resumed(boot, id) in n.tasks && Carries(n.tasks[Resumed(boot, id)], id, s.rows[id])
  }

  ghost function Unused(tasks: set<TaskId>): (boot: nat)
    ensures forall k :: k in tasks && k.Resumed? ==> k.boot < boot
  {
    if tasks == {} then 0
    else
      var k :| k in tasks;
      var rest := Unused(tasks - {k});
      assert forall j :: j in tasks ==> j == k || j in tasks - {k};
      if k.Resumed? && rest <= k.boot then k.boot + 1 else rest
  }

  lemma ResumedExactlyWhenPending(s: State, id: nat)
    requires id in s.rows
    ensures ResumedByRestart(s, id) <==> s.rows[id].status.Ready? && s.rows[id].pending
  {
    if s.rows[id].status.Ready? && s.rows[id].pending {
      forall boot | Enabled(s, Restart(boot)) ensures Resumes(s, boot, id) { RestartResumes(s, boot); }
    } else {
      var boot := Unused(s.tasks.Keys);
      assert Enabled(s, Restart(boot)) by {
        forall k | k in s.tasks && k.Resumed? ensures k.boot != boot { assert k in s.tasks.Keys; }
      }
      RestartResumes(s, boot);
      assert !Resumes(s, boot, id);
    }
  }

  // ---------------------------------------------------------------- runs

  ghost predicate Moves(careful: bool, states: seq<State>, steps: seq<Step>, i: nat)
  {
    && i < |steps| && i + 1 < |states| && Enabled(states[i], steps[i]) && states[i + 1] == Apply(states[i], steps[i])
    && (careful ==> Careful(states[i], steps[i]))
  }

  /** The steps, with the state before each of them and the one they end in. */
  ghost predicate Run(careful: bool, states: seq<State>, steps: seq<Step>)
  {
    |states| == |steps| + 1 && states[0] == EMPTY && forall i: nat :: i < |steps| ==> Moves(careful, states, steps, i)
  }

  lemma {:induction false} RunInv(careful: bool, states: seq<State>, steps: seq<Step>, n: nat)
    requires Run(careful, states, steps) && n <= |steps|
    ensures Inv(states[n]) && (careful ==> CarefulInv(states[n]))
  {
    if n > 0 {
      RunInv(careful, states, steps, n - 1);
      assert Moves(careful, states, steps, n - 1);
      StepKeepsInv(states[n - 1], steps[n - 1]);
      if careful { StepKeepsCarefulInv(states[n - 1], steps[n - 1]); }
    }
  }

  // ---------------------------------------------------------------- records

  /** How often the row was recorded. */
  function Records(steps: seq<Step>, id: nat): nat
  {
    if steps == [] then 0
    else
      var last := steps[|steps| - 1];
      Records(steps[..|steps| - 1], id) + if last.Record? && last.id == id then 1 else 0
  }

  /** A record makes its row ready and pending with this version and image, one generation on; no other row
      changes. */
  lemma RecordWrites(s: State, step: Step)
    requires Inv(s) && Enabled(s, step) && step.Record?
    ensures var n := Apply(s, step);
            && step.id in n.rows && n.rows.Keys == s.rows.Keys + {step.id}
            && var row := n.rows[step.id];
            && row.version == step.v && row.image == step.image && row.status.Ready? && row.pending
            && row.gen == (if step.id in s.rows then s.rows[step.id].gen + 1 else 1)
            && (forall id :: id in s.rows && id != step.id ==> n.rows[id] == s.rows[id])
            && (step.task.Some? ==> Notified(step.task.value) in n.tasks
                                    && Carries(n.tasks[Notified(step.task.value)], step.id, row))
  {
  }

  /** A crash ends every task, an error the one it happens to; neither changes a row. */
  lemma CrashesLeaveTheRows(s: State, k: TaskId)
    ensures Apply(s, Crash) == s.(tasks := map[])
    ensures k in s.tasks ==> Apply(s, Drop(k)) == s.(tasks := s.tasks - {k})
  {
  }

  /** A build makes its row ready with its image, or failed without one, and leaves whether it is to be rolled out; no
      other row changes. */
  lemma BuildWrites(s: State, id: nat, ok: bool, image: string)
    requires id in s.rows
    ensures var n := Apply(s, Finish(id, ok, image));
            && n.rows.Keys == s.rows.Keys && (forall i :: i in s.rows && i != id ==> n.rows[i] == s.rows[i])
            && (if ok then n.rows[id].status.Ready? && n.rows[id].image == image
                else n.rows[id].status.Failed? && n.rows[id].image == "")
            && n.rows[id].version == s.rows[id].version && n.rows[id].startedAt == s.rows[id].startedAt
            && n.rows[id].pending == s.rows[id].pending && n.rows[id].gen == s.rows[id].gen
  {
  }

  /** A task that clears its row ends its rollout: no restart resumes it, unless it was recorded again meanwhile; then,
      and for every other row, nothing changes. */
  lemma ClearEndsTheRollout(s: State, k: TaskId)
    requires Inv(s) && Enabled(s, Clear(k)) && s.tasks[k].target.gen > 0
    ensures var t, n := s.tasks[k].target, Apply(s, Clear(k));
            && t.id in n.rows && (s.rows[t.id].gen == t.gen ==> !ResumedByRestart(n, t.id))
            && n.rows.Keys == s.rows.Keys
            && forall id :: id in s.rows && (id != t.id || s.rows[id].gen != t.gen) ==> n.rows[id] == s.rows[id]
  {
    assert TaskSound(s, s.tasks[k]);
    ResumedExactlyWhenPending(Apply(s, Clear(k)), s.tasks[k].target.id);
  }

  /** The generation of a row is the number of its records. */
  lemma {:induction false} GenerationCountsRecords(careful: bool, states: seq<State>, steps: seq<Step>, n: nat, id: nat)
    requires Run(careful, states, steps) && n <= |steps|
    ensures Records(steps[..n], id) == if id in states[n].rows then states[n].rows[id].gen else 0
  {
    if n > 0 {
      GenerationCountsRecords(careful, states, steps, n - 1, id);
      assert steps[..n][..n - 1] == steps[..n - 1];
      assert Moves(careful, states, steps, n - 1);
      RunInv(careful, states, steps, n - 1);
    }
  }

  // ---------------------------------------------------------------- rollouts

  /** One task with this target, from state `i` to state `j`. */
  ghost predicate Works(states: seq<State>, k: TaskId, t: Target, i: nat, j: nat)
  {
    i <= j < |states| && forall m: nat :: i <= m <= j ==> Has(states[m], k, t)
  }

  predicate Has(s: State, k: TaskId, t: Target)
  {
    k in s.tasks && s.tasks[k].target == t
  }

  lemma WorksOn(states: seq<State>, k: TaskId, t: Target, i: nat, j: nat)
    requires Works(states, k, t, i, j) && j + 1 < |states| && Has(states[j + 1], k, t)
    ensures Works(states, k, t, i, j + 1)
  {
  }

  /** The target was found current at step `a`, */
  ghost predicate FoundCurrent(states: seq<State>, steps: seq<Step>, k: TaskId, t: Target, a: nat, n: nat)
  {
    && a < n <= |steps| && steps[a] == Check(k) && Works(states, k, t, a, n) && Current(states[a].rows, t)
  }

  /** the fleet was rolled without failure at step `b`, */
  ghost predicate FleetRolled(states: seq<State>, steps: seq<Step>, k: TaskId, t: Target, a: nat, b: nat, n: nat)
  {
    && b < n <= |steps| && FoundCurrent(states, steps, k, t, a, b) && steps[b] == Roll(k, false)
    && Works(states, k, t, a, n)
  }

  /** and the target was found current again at step `c`. */
  ghost predicate FoundAgain(states: seq<State>, steps: seq<Step>, k: TaskId, t: Target, a: nat, b: nat, c: nat, n: nat)
  {
    && c < n <= |steps| && FleetRolled(states, steps, k, t, a, b, c) && steps[c] == Recheck(k)
    && Current(states[c].rows, t) && Works(states, k, t, a, n)
  }

  /** One task found the target current, rolled the fleet without failure, found it current again and resumed the
      dormant workers without failure, in this order. */
  ghost predicate Completes(states: seq<State>, steps: seq<Step>, k: TaskId, t: Target, a: nat, b: nat, c: nat, d: nat)
  {
    d < |steps| && FoundAgain(states, steps, k, t, a, b, c, d) && steps[d] == Settle(k, false)
  }

  ghost predicate WasRolledOut(states: seq<State>, steps: seq<Step>, n: nat, t: Target)
  {
    exists k, a: nat, b: nat, c: nat, d: nat :: d < n && Completes(states, steps, k, t, a, b, c, d)
  }

  /** A check of a task with this target found another deployment to be the latest. */
  ghost predicate Finds(states: seq<State>, steps: seq<Step>, k: TaskId, t: Target, a: nat)
  {
    && a < |steps| && a < |states| && (steps[a] == Check(k) || steps[a] == Recheck(k)) && Has(states[a], k, t)
    && !Current(states[a].rows, t)
  }

  ghost predicate WasSuperseded(states: seq<State>, steps: seq<Step>, n: nat, t: Target)
  {
    exists k, a: nat :: a < n && Finds(states, steps, k, t, a)
  }

  /** What a task has behind it, by its phase. */
  ghost predicate Behind(states: seq<State>, steps: seq<Step>, n: nat, k: TaskId)
    requires n < |states| && k in states[n].tasks
  {
    var t := states[n].tasks[k].target;
    match states[n].tasks[k].phase
    case Rolling => exists a: nat :: FoundCurrent(states, steps, k, t, a, n)
    case Rolled(failed) => failed || exists a: nat, b: nat :: FleetRolled(states, steps, k, t, a, b, n)
    case Resuming(failed) => failed || exists a: nat, b: nat, c: nat :: FoundAgain(states, steps, k, t, a, b, c, n)
    case _ => true
  }

  /** A step leaves a task what it rolls out. */
  lemma TargetStays(s: State, step: Step, k: TaskId)
    requires Enabled(s, step) && k in Apply(s, step).tasks
    ensures k in s.tasks ==> Has(Apply(s, step), k, s.tasks[k].target)
    ensures k !in s.tasks ==> Apply(s, step).tasks[k].phase.Waiting?
  {
  }

  /** A task that stays in its phase keeps what it has behind it. */
  lemma BehindStays(states: seq<State>, steps: seq<Step>, n: nat, k: TaskId)
    requires n < |steps| && n + 1 < |states| && k in states[n].tasks && Behind(states, steps, n, k)
    requires k in states[n + 1].tasks && states[n + 1].tasks[k] == states[n].tasks[k]
    ensures Behind(states, steps, n + 1, k)
  {
    var t := states[n].tasks[k].target;
    match states[n].tasks[k].phase
    case Rolling =>
      var a: nat :| FoundCurrent(states, steps, k, t, a, n);
      WorksOn(states, k, t, a, n);
      assert FoundCurrent(states, steps, k, t, a, n + 1);
    case Rolled(failed) =>
      if !failed {
        var a: nat, b: nat :| FleetRolled(states, steps, k, t, a, b, n);
        WorksOn(states, k, t, a, n);
        assert FleetRolled(states, steps, k, t, a, b, n + 1);
      }
    case Resuming(failed) =>
      if !failed {
        var a: nat, b: nat, c: nat :| FoundAgain(states, steps, k, t, a, b, c, n);
        WorksOn(states, k, t, a, n);
        assert FoundAgain(states, steps, k, t, a, b, c, n + 1);
      }
    case _ =>
  }

  /** One that moves on adds a step to it. */
  lemma BehindGrows(states: seq<State>, steps: seq<Step>, n: nat, k: TaskId)
    requires n < |steps| && n + 1 < |states| && Enabled(states[n], steps[n])
    requires states[n + 1] == Apply(states[n], steps[n])
    requires k in states[n].tasks && Behind(states, steps, n, k) && k in states[n + 1].tasks
    requires states[n + 1].tasks[k] != states[n].tasks[k]
    ensures Behind(states, steps, n + 1, k)
  {
    var t := states[n].tasks[k].target;
    TargetStays(states[n], steps[n], k);
    match states[n].tasks[k].phase
    case Waiting =>
      if Current(states[n].rows, t) { assert FoundCurrent(states, steps, k, t, n, n + 1); }
    case Rolling =>
      var a: nat :| FoundCurrent(states, steps, k, t, a, n);
      WorksOn(states, k, t, a, n);
      if steps[n] == Roll(k, false) { assert FleetRolled(states, steps, k, t, a, n, n + 1); }
    case Rolled(failed) =>
      if !failed && Current(states[n].rows, t) {
        var a: nat, b: nat :| FleetRolled(states, steps, k, t, a, b, n);
        WorksOn(states, k, t, a, n);
        assert FoundAgain(states, steps, k, t, a, b, n, n + 1);
      }
    case _ =>
  }

  lemma {:induction false} RunBehind(careful: bool, states: seq<State>, steps: seq<Step>, n: nat, k: TaskId)
    requires Run(careful, states, steps) && n <= |steps| && k in states[n].tasks
    ensures Behind(states, steps, n, k)
  {
    if n > 0 {
      assert Moves(careful, states, steps, n - 1);
      TargetStays(states[n - 1], steps[n - 1], k);
      if k in states[n - 1].tasks {
        RunBehind(careful, states, steps, n - 1, k);
        if states[n].tasks[k] == states[n - 1].tasks[k] {
          BehindStays(states, steps, n - 1, k);
        } else {
          BehindGrows(states, steps, n - 1, k);
        }
      }
    }
  }

  /** What counts as completed was rolled out, and what counts as superseded was found so. */
  lemma {:induction false} TracesHappened(careful: bool, states: seq<State>, steps: seq<Step>, n: nat, t: Target)
    requires Run(careful, states, steps) && n <= |steps|
    ensures t in states[n].completed ==> WasRolledOut(states, steps, n, t)
    ensures t in states[n].superseded ==> WasSuperseded(states, steps, n, t)
  {
    if n > 0 {
      var m := n - 1;
      TracesHappened(careful, states, steps, m, t);
      assert Moves(careful, states, steps, m);
      if t in states[n].completed && t !in states[m].completed {
        var k := steps[m].k;
        RunBehind(careful, states, steps, m, k);
        var a: nat, b: nat, c: nat :| FoundAgain(states, steps, k, t, a, b, c, m);
        assert Completes(states, steps, k, t, a, b, c, m);
      }
      if t in states[n].superseded && t !in states[m].superseded {
        assert Finds(states, steps, steps[m].k, t, m);
      }
    }
  }

  // ---------------------------------------------------------------- the promises

  /** In every run a ready row is resumed by the next restart only if it was recorded, and if it was, it is, or a task
      for exactly its last record rolled it out without failure or found it superseded. */
  lemma NoRecordedRolloutIsLost(states: seq<State>, steps: seq<Step>, id: nat)
    requires Run(false, states, steps)
    requires id in states[|steps|].rows && states[|steps|].rows[id].status.Ready?
    ensures ResumedByRestart(states[|steps|], id) ==> Records(steps, id) > 0
    ensures Records(steps, id) > 0 ==>
              || ResumedByRestart(states[|steps|], id)
              || exists t: Target ::
                   && t.id == id && t.gen == Records(steps, id)
                   && (WasRolledOut(states, steps, |steps|, t) || WasSuperseded(states, steps, |steps|, t))
  {
    var s := states[|steps|];
    RunInv(false, states, steps, |steps|);
    GenerationCountsRecords(false, states, steps, |steps|, id);
    assert steps[..|steps|] == steps;
    ResumedExactlyWhenPending(s, id);
    assert RowSound(s, id, s.rows[id]);
    if s.rows[id].gen > 0 && !s.rows[id].pending {
      assert Handled(s, id, s.rows[id].gen);
      var t :| t in s.completed + s.superseded && t.id == id && t.gen == s.rows[id].gen;
      TracesHappened(false, states, steps, |steps|, t);
    }
  }

  /** When builds update their rows carefully, more holds: the latest ready row of each source, once recorded, is
      resumed by the next restart, or its own image and SHAs were rolled out without failure. */
  lemma LatestRecordIsRolledOut(states: seq<State>, steps: seq<Step>, id: nat)
    requires Run(true, states, steps) && id in states[|steps|].rows && Records(steps, id) > 0
    requires IsLatest(states[|steps|].rows, states[|steps|].rows[id].version.source, id)
    ensures var s := states[|steps|];
            var row := s.rows[id];
            || ResumedByRestart(s, id)
            || WasRolledOut(states, steps, |steps|,
                            Target(id, row.gen, row.version.source, row.version.git, row.version.litestream, row.image))
  {
    var s := states[|steps|];
    RunInv(true, states, steps, |steps|);
    GenerationCountsRecords(true, states, steps, |steps|, id);
    assert steps[..|steps|] == steps;
    ResumedExactlyWhenPending(s, id);
    assert Stands(s.rows, id) && Secure(s, id);
    TracesHappened(true, states, steps, |steps|, TargetOf(s.rows, id));
  }
}

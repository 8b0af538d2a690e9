/** Rollouts of recorded deployments, in any interleaving of records, builds, rollouts, errors, crashes and
    restarts. A rollout is a task whose reads and writes of the rows are separate steps; nothing is assumed
    about which tasks run together. */
module Rollout {
  import opened Basics
  import opened Deployments

  datatype TaskId = Notified(n: nat) | Resumed(boot: nat, id: nat)

  /** Where a rollout stands: before the first check, rolling the fleet, before the second check, resuming
      dormant workers, about to clear the row. */
  datatype Phase = Waiting | Rolling | Rolled(failed: bool) | Resuming(failed: bool) | Clearing

  datatype Task = Task(target: Target, phase: Phase)

  /** The rows, the running tasks, and what the checks and rollouts have found so far. */
  datatype State = State(rows: Rows, next: nat, clock: nat, tasks: map<TaskId, Task>, completed: set<Target>,
      superseded: set<Target>)

  const EMPTY := State(map[], 1, 0, map[], {}, {})

  datatype Step =
    | Create(v: Version)                                             // a build starts
    | Finish(id: nat, ok: bool, image: string)                       // the build updates its row
    | Record(v: Version, image: string, id: nat, task: Option<nat>)  // a ready deployment; its rollout may not start
    | Drive(n: nat, t: Target)                                       // a rollout that was never recorded
    | Check(k: TaskId)
    | Roll(k: TaskId, failed: bool)
    | Recheck(k: TaskId)
    | Settle(k: TaskId, failed: bool)                                // dormant workers resumed
    | Clear(k: TaskId)
    | Drop(k: TaskId)                                                // any error or cancellation ends a task
    | Tick
    | Crash
    | Restart(boot: nat)

  ghost predicate Enabled(s: State, step: Step)
  {
    match step
    case Create(_) => true
    case Finish(id, _, _) => id in s.rows
    case Record(v, _, id, task) => Chooses(s.rows, s.next, v, id) && (task.Some? ==> Notified(task.value) !in s.tasks)
    case Drive(n, t) => t.gen == 0 && Notified(n) !in s.tasks
    case Check(k) => k in s.tasks && s.tasks[k].phase.Waiting?
    case Roll(k, _) => k in s.tasks && s.tasks[k].phase.Rolling?
    case Recheck(k) => k in s.tasks && s.tasks[k].phase.Rolled?
    case Settle(k, _) => k in s.tasks && s.tasks[k].phase.Resuming?
    case Clear(k) => k in s.tasks && s.tasks[k].phase.Clearing?
    case Drop(k) => k in s.tasks
    case Tick => true
    case Crash => true
    case Restart(boot) => forall k :: k in s.tasks && k.Resumed? ==> k.boot != boot
  }

  function Moved(s: State, k: TaskId, phase: Phase): State
    requires k in s.tasks
  {
    s.(tasks := s.tasks[k := s.tasks[k].(phase := phase)])
  }

  /** Only a rollout with a recorded generation leaves a trace. */
  function Trace(t: Target): set<Target>
  {
    if t.gen > 0 then {t} else {}
  }

  /** A check: go on when the target is current, else mark it superseded and clear it. */
  ghost function Checked(s: State, k: TaskId, phase: Phase): State
    requires k in s.tasks
  {
    var t := s.tasks[k].target;
    if Current(s.rows, t) then Moved(s, k, phase) else Moved(s, k, Clearing).(superseded := s.superseded + Trace(t))
  }

  ghost function Apply(s: State, step: Step): State
    requires Enabled(s, step)
  {
    match step
    case Create(v) => s.(rows := s.rows[s.next := Row(v, "", Building, s.clock, false, 0)], next := s.next + 1)
    case Finish(id, ok, image) =>
      s.(rows := Finished(s.rows, id, ok, image))
    case Record(v, image, id, task) =>
      var rows := Put(s.rows, v, image, s.clock, id);
      s.(rows := rows, next := if id == s.next then s.next + 1 else s.next,
         tasks := if task.Some? then s.tasks[Notified(task.value) := Task(TargetOf(rows, id), Waiting)] else s.tasks)
    case Drive(n, t) => s.(tasks := s.tasks[Notified(n) := Task(t, Waiting)])
    case Check(k) => Checked(s, k, Rolling)
    case Roll(k, failed) => Moved(s, k, Rolled(failed))
    case Recheck(k) => Checked(s, k, Resuming(s.tasks[k].phase.failed))
    case Settle(k, failed) =>
      if failed || s.tasks[k].phase.failed then s.(tasks := s.tasks - {k})
      else Moved(s, k, Clearing).(completed := s.completed + Trace(s.tasks[k].target))
    case Clear(k) =>
      var t := s.tasks[k].target;
      s.(rows := if t.id == 0 || t.gen == 0 then s.rows else Cleared(s.rows, t.id, t.gen), tasks := s.tasks - {k})
    case Drop(k) => s.(tasks := s.tasks - {k})
    case Tick => s.(clock := s.clock + 1)
    case Crash => s.(tasks := map[])
    case Restart(boot) =>
      s.(tasks := s.tasks + map k: TaskId | k in ResumedTasks(s.rows, boot) :: Task(TargetOf(s.rows, k.id), Waiting))
  }

  function ResumedTasks(rows: Rows, boot: nat): (ks: set<TaskId>)
    ensures forall k :: k in ks ==> k.Resumed? && Resumable(rows, k.id)
  {
    set id | id in rows && Resumable(rows, id) :: Resumed(boot, id)
  }

  function Finished(rows: Rows, id: nat, ok: bool, image: string): Rows
    requires id in rows
  {
    rows[id := rows[id].(status := if ok then Ready else Failed, image := if ok then image else "")]
  }

  /** The task will clear the row's present record although it did not roll out what the row holds: it is past
      its last check, or its target is not what the row holds and it has not failed its way past that check. */
  predicate Threatens(s: State, k: TaskId, id: nat)
    requires k in s.tasks && id in s.rows
  {
    var task := s.tasks[k];
    && task.target.id == id && task.target.gen == s.rows[id].gen
    && (task.phase.Clearing? || (task.target != TargetOf(s.rows, id) && task.phase != Resuming(true)))
  }

  /** What the row holds was rolled out, or will be after a restart whatever the running tasks do; a row that was
      never recorded asks for nothing. */
  ghost predicate Secure(s: State, id: nat)
    requires id in s.rows
  {
    || s.rows[id].gen == 0
    || TargetOf(s.rows, id) in s.completed
    || (s.rows[id].pending && forall k :: k in s.tasks ==> !Threatens(s, k, id))
  }

  ghost predicate Stands(rows: Rows, id: nat)
  {
    id in rows && IsLatest(rows, rows[id].version.source, id)
  }

  /** The guard of a build's update: the row it touches, and any row it uncovers, is secure if it then stands as
      the latest ready one of its source. */
  ghost predicate Careful(s: State, step: Step)
  {
    step.Finish? && step.id in s.rows ==>
      var n := s.(rows := Finished(s.rows, step.id, step.ok, step.image));
      forall id :: Stands(n.rows, id) && (id == step.id || !Stands(s.rows, id)) ==> Secure(n, id)
  }

  ghost predicate Leads(careful: bool, s: State, steps: seq<Step>, t: State)
    decreases |steps|
  {
    if steps == [] then s == t
    else Enabled(s, steps[0]) && (careful ==> Careful(s, steps[0])) && Leads(careful, Apply(s, steps[0]), steps[1..], t)
  }

  // ---------------------------------------------------------------- what every step keeps

  /** The target was recorded in its row, at this generation or an earlier one. */
  predicate Known(rows: Rows, t: Target)
  {
    && t.gen > 0 && t.id in rows && t.gen <= rows[t.id].gen
    && rows[t.id].version.source == t.source && rows[t.id].version.git == t.git && rows[t.id].version.litestream
        == t.litestream
  }

  predicate RowSound(s: State, id: nat, row: Row)
  {
    0 < id < s.next && row.startedAt <= s.clock && (row.pending ==> row.gen > 0)
  }

  ghost predicate Handled(s: State, id: nat, gen: nat)
  {
    exists t :: t in s.completed + s.superseded && t.id == id && t.gen == gen
  }

  ghost predicate TaskSound(s: State, task: Task)
  {
    task.target.gen > 0 ==>
        Known(s.rows, task.target) && (task.phase.Clearing? ==> task.target in s.completed + s.superseded)
  }

  ghost predicate Inv(s: State)
  {
    && s.next > 0
    && (forall id :: id in s.rows ==> RowSound(s, id, s.rows[id]))
    && (forall t :: t in s.completed + s.superseded ==> Known(s.rows, t))
    && (forall k :: k in s.tasks ==> TaskSound(s, s.tasks[k]))
    && (forall id :: id in s.rows && s.rows[id].gen > 0 && !s.rows[id].pending ==> Handled(s, id, s.rows[id].gen))
  }

  /** A row keeps its version, and its generation never falls. */
  lemma KnownStep(s: State, step: Step, t: Target)
    requires Inv(s) && Enabled(s, step) && Known(s.rows, t)
    ensures Known(Apply(s, step).rows, t)
  {
  }

  lemma TracesGrow(s: State, step: Step)
    requires Enabled(s, step)
    ensures s.completed <= Apply(s, step).completed && s.superseded <= Apply(s, step).superseded
  {
  }

  lemma RowSoundStep(s: State, step: Step, id: nat)
    requires Inv(s) && Enabled(s, step) && id in Apply(s, step).rows
    ensures RowSound(Apply(s, step), id, Apply(s, step).rows[id])
  {
    if id in s.rows { assert RowSound(s, id, s.rows[id]); }
  }

  /** A task keeps the target it was given, and a new one is given a row as it stands. */
  lemma TaskTargets(s: State, step: Step, k: TaskId)
    requires Enabled(s, step) && k in Apply(s, step).tasks && Apply(s, step).tasks[k].target.gen > 0
    ensures var n := Apply(s, step); var t := n.tasks[k].target;
            (k in s.tasks && s.tasks[k].target == t) || (Resumable(n.rows, t.id) && t == TargetOf(n.rows, t.id))
  {
  }

  /** A task that comes to clear its row has left its trace. */
  lemma ClearingLeavesTrace(s: State, step: Step, k: TaskId)
    requires Enabled(s, step) && k in Apply(s, step).tasks && Apply(s, step).tasks[k].phase.Clearing?
    ensures k in s.tasks && s.tasks[k].target == Apply(s, step).tasks[k].target
    ensures s.tasks[k].phase.Clearing?
        || Trace(s.tasks[k].target) <= Apply(s, step).completed + Apply(s, step).superseded
  {
  }

  lemma TaskSoundStep(s: State, step: Step, k: TaskId)
    requires Inv(s) && Enabled(s, step) && k in Apply(s, step).tasks
    ensures TaskSound(Apply(s, step), Apply(s, step).tasks[k])
  {
    var n := Apply(s, step);
    var t := n.tasks[k].target;
    if t.gen > 0 {
      TaskTargets(s, step, k);
      if k in s.tasks && s.tasks[k].target == t {
        assert TaskSound(s, s.tasks[k]);
        KnownStep(s, step, t);
      }
      if n.tasks[k].phase.Clearing? {
        ClearingLeavesTrace(s, step, k);
        TracesGrow(s, step);
      }
    }
  }

  lemma HandledStep(s: State, step: Step, id: nat)
    requires Inv(s) && Enabled(s, step) && id in Apply(s, step).rows
    requires Apply(s, step).rows[id].gen > 0 && !Apply(s, step).rows[id].pending
    ensures Handled(Apply(s, step), id, Apply(s, step).rows[id].gen)
  {
    TracesGrow(s, step);
    var gen := Apply(s, step).rows[id].gen;
    if id in s.rows && s.rows[id].gen == gen && !s.rows[id].pending {
      assert Handled(s, id, gen);
      var t :| t in s.completed + s.superseded && t.id == id && t.gen == gen;
      assert t in Apply(s, step).completed + Apply(s, step).superseded;
    } else {
      assert TaskSound(s, s.tasks[step.k]);
      assert s.tasks[step.k].target in Apply(s, step).completed + Apply(s, step).superseded;
    }
  }

  lemma TracesStep(s: State, step: Step, t: Target)
    requires Inv(s) && Enabled(s, step) && t in Apply(s, step).completed + Apply(s, step).superseded
    ensures Known(Apply(s, step).rows, t)
  {
    if t !in s.completed + s.superseded {
      assert t == s.tasks[step.k].target && TaskSound(s, s.tasks[step.k]);
    }
    KnownStep(s, step, t);
  }

  lemma StepKeepsInv(s: State, step: Step)
    requires Inv(s) && Enabled(s, step)
    ensures Inv(Apply(s, step))
  {
    var n := Apply(s, step);
    forall id | id in n.rows ensures RowSound(n, id, n.rows[id]) { RowSoundStep(s, step, id); }
    forall t | t in n.completed + n.superseded ensures Known(n.rows, t) { TracesStep(s, step, t); }
    forall k | k in n.tasks ensures TaskSound(n, n.tasks[k]) { TaskSoundStep(s, step, k); }
    forall id | id in n.rows && n.rows[id].gen > 0 && !n.rows[id].pending
      ensures Handled(n, id, n.rows[id].gen)
    {
      HandledStep(s, step, id);
    }
  }

  // ---------------------------------------------------------------- what careful steps keep

  /** Every latest ready row is secure. */
  ghost predicate CarefulInv(s: State)
  {
    Inv(s) && forall id :: Stands(s.rows, id) ==> Secure(s, id)
  }

  /** The promise: the latest ready row of each source, once recorded, is resumed by a restart or its own image
      and SHAs were rolled out without error. */
  ghost predicate RolledOut(s: State)
  {
    forall id :: Stands(s.rows, id) && s.rows[id].gen > 0 ==>
        Resumable(s.rows, id) || TargetOf(s.rows, id) in s.completed
  }

  lemma SecureIsRolledOut(s: State)
    requires CarefulInv(s)
    ensures RolledOut(s)
  {
  }

  /** A task on a standing row rolls out what the row holds, so its checks find it current. */
  lemma StandingIsCurrent(s: State, k: TaskId)
    requires k in s.tasks && s.tasks[k].target.id in s.rows && Stands(s.rows, s.tasks[k].target.id)
    requires s.tasks[k].target == TargetOf(s.rows, s.tasks[k].target.id)
    ensures Current(s.rows, s.tasks[k].target)
  {
  }

  /** A task that does not threaten a standing row does not come to, unless it has just rolled the row out. */
  lemma NoNewThreat(s: State, step: Step, id: nat, k: TaskId)
    requires Enabled(s, step) && Stands(s.rows, id) && k in s.tasks && k in Apply(s, step).tasks && !Threatens(s, k, id)
    requires OfTasks(step)
    ensures Apply(s, step).rows == s.rows
    ensures TargetOf(s.rows, id) in Apply(s, step).completed || s.rows[id].gen == 0 || !Threatens(Apply(s, step), k, id)
  {
    if s.tasks[k].target == TargetOf(s.rows, id) { StandingIsCurrent(s, k); }
  }

  predicate OfTasks(step: Step)
  {
    step.Check? || step.Roll? || step.Recheck? || step.Settle? || step.Drop? || step.Tick? || step.Crash?
  }

  lemma TaskStepRows(s: State, step: Step)
    requires Enabled(s, step) && OfTasks(step)
    ensures Apply(s, step).rows == s.rows && Apply(s, step).tasks.Keys <= s.tasks.Keys
  {
  }

  /** Steps of tasks leave the rows alone and keep a standing row secure. */
  lemma TaskStepSecure(s: State, step: Step, id: nat)
    requires CarefulInv(s) && Enabled(s, step) && OfTasks(step) && Stands(Apply(s, step).rows, id)
    ensures Secure(Apply(s, step), id)
  {
    var n := Apply(s, step);
    TracesGrow(s, step);
    TaskStepRows(s, step);
    assert Secure(s, id);
    if s.rows[id].gen > 0 && TargetOf(s.rows, id) !in n.completed {
      forall k | k in n.tasks ensures !Threatens(n, k, id) { NoNewThreat(s, step, id, k); }
    }
  }

  lemma ClearSecure(s: State, k: TaskId, id: nat)
    requires CarefulInv(s) && Enabled(s, Clear(k)) && Stands(Apply(s, Clear(k)).rows, id)
    ensures Secure(Apply(s, Clear(k)), id)
  {
    var n := Apply(s, Clear(k));
    SameOrder(s.rows, n.rows, id);
    assert TaskSound(s, s.tasks[k]);
    assert Secure(s, id);
    if s.rows[id].gen > 0 && TargetOf(s.rows, id) !in s.completed {
      assert !Threatens(s, k, id);
      forall j | j in n.tasks ensures !Threatens(n, j, id) { assert !Threatens(s, j, id); }
    }
  }

  predicate SamePlace(a: Row, b: Row)
  {
    a.version == b.version && a.status == b.status && a.startedAt == b.startedAt
  }

  /** Rows that differ in what the order does not look at stand as before. */
  lemma SameOrder(before: Rows, after: Rows, id: nat)
    requires before.Keys == after.Keys && Stands(after, id)
    requires forall i :: i in before ==> SamePlace(before[i], after[i])
    ensures Stands(before, id)
  {
    assert ReadyOf(before, before[id].version.source) == ReadyOf(after, after[id].version.source);
  }

  /** A row that newly stands after the ready rows grew by one is that one. */
  lemma GrownOrder(before: Rows, after: Rows, added: nat, id: nat)
    requires Stands(after, id) && id != added && before.Keys <= after.Keys <= before.Keys + {added}
    requires forall i :: i in before && i != added ==> after[i] == before[i]
    requires added in before ==>
        after[added].version == before[added].version && after[added].startedAt == before[added].startedAt
    requires added in before && before[added].status.Ready? ==> after[added].status.Ready?
    ensures Stands(before, id)
  {
    var source := before[id].version.source;
    assert id in ReadyOf(before, source);
    forall other | other in ReadyOf(before, source) && other != id ensures Later(before, id, other) {
      assert other in ReadyOf(after, source);
    }
  }

  lemma OldTaskNoThreat(s: State, id: nat, k: TaskId, gen: nat)
    requires Inv(s) && k in s.tasks && (id in s.rows ==> s.rows[id].gen < gen) && gen > 0
    ensures !(s.tasks[k].target.id == id && s.tasks[k].target.gen == gen)
  {
    assert TaskSound(s, s.tasks[k]);
  }

  lemma RecordSecure(s: State, step: Step, id: nat)
    requires CarefulInv(s) && Enabled(s, step) && step.Record? && Stands(Apply(s, step).rows, id)
    ensures Secure(Apply(s, step), id)
  {
    var n := Apply(s, step);
    if id == step.id {
      forall k | k in n.tasks ensures !Threatens(n, k, id) {
        if k in s.tasks && n.tasks[k] == s.tasks[k] { OldTaskNoThreat(s, id, k, n.rows[id].gen); }
      }
    } else {
      GrownOrder(s.rows, n.rows, step.id, id);
      if s.rows[id].gen > 0 && TargetOf(s.rows, id) !in s.completed {
        forall k | k in n.tasks ensures !Threatens(n, k, id) {
          if k in s.tasks && n.tasks[k] == s.tasks[k] { assert !Threatens(s, k, id); }
        }
      }
    }
  }

  lemma ArrivalSecure(s: State, step: Step, id: nat)
    requires CarefulInv(s) && Enabled(s, step) && (step.Drive? || step.Restart?) && Stands(s.rows, id)
    ensures Apply(s, step).rows == s.rows && Secure(Apply(s, step), id)
  {
    var n := Apply(s, step);
    if s.rows[id].gen > 0 && TargetOf(s.rows, id) !in s.completed {
      forall k | k in n.tasks ensures !Threatens(n, k, id) {
        if k in s.tasks && n.tasks[k] == s.tasks[k] { assert !Threatens(s, k, id); }
      }
    }
  }

  lemma CreateSecure(s: State, step: Step, id: nat)
    requires CarefulInv(s) && Enabled(s, step) && step.Create? && Stands(Apply(s, step).rows, id)
    ensures Secure(Apply(s, step), id)
  {
    var n := Apply(s, step);
    if id in s.rows && id != s.next {
      GrownOrder(s.rows, n.rows, s.next, id);
      assert Secure(s, id);
      if s.rows[id].gen > 0 && TargetOf(s.rows, id) !in s.completed {
        forall k | k in n.tasks ensures !Threatens(n, k, id) { assert !Threatens(s, k, id); }
      }
    }
  }

  lemma FinishSecure(s: State, step: Step, id: nat)
    requires CarefulInv(s) && Enabled(s, step) && step.Finish? && Careful(s, step) && Stands(Apply(s, step).rows, id)
    ensures Secure(Apply(s, step), id)
  {
    var n := Apply(s, step);
    if id != step.id && Stands(s.rows, id) {
      assert Secure(s, id);
      if s.rows[id].gen > 0 && TargetOf(s.rows, id) !in s.completed {
        forall k | k in n.tasks ensures !Threatens(n, k, id) { assert !Threatens(s, k, id); }
      }
    }
  }

  lemma StepKeepsCarefulInv(s: State, step: Step)
    requires CarefulInv(s) && Enabled(s, step) && Careful(s, step)
    ensures CarefulInv(Apply(s, step))
  {
    StepKeepsInv(s, step);
    var n := Apply(s, step);
    forall id | Stands(n.rows, id) ensures Secure(n, id) {
      match step
      case Create(_) => CreateSecure(s, step, id);
      case Finish(_, _, _) => FinishSecure(s, step, id);
      case Record(_, _, _, _) => RecordSecure(s, step, id);
      case Drive(_, _) => ArrivalSecure(s, step, id);
      case Restart(_) => ArrivalSecure(s, step, id);
      case Clear(k) => ClearSecure(s, k, id);
      case _ => TaskStepSecure(s, step, id);
    }
  }

  // ---------------------------------------------------------------- runs

  lemma {:induction false} RunKeepsInv(careful: bool, s: State, steps: seq<Step>, t: State)
    requires Leads(careful, s, steps, t) && Inv(s) && (careful ==> CarefulInv(s))
    ensures Inv(t) && (careful ==> CarefulInv(t))
    decreases |steps|
  {
    if steps != [] {
      StepKeepsInv(s, steps[0]);
      if careful { StepKeepsCarefulInv(s, steps[0]); }
      RunKeepsInv(careful, Apply(s, steps[0]), steps[1..], t);
    }
  }

  // ---------------------------------------------------------------- the guard is exact

  /** Updates of rows nobody recorded, while they are being built, are careful. */
  lemma UnrecordedBuildIsCareful(s: State, id: nat, ok: bool, image: string)
    requires id in s.rows && s.rows[id].gen == 0 && s.rows[id].status.Building?
    ensures Careful(s, Finish(id, ok, image))
  {
    var rows := Finished(s.rows, id, ok, image);
    forall i | Stands(rows, i) && i != id ensures Stands(s.rows, i) { GrownOrder(s.rows, rows, id, i); }
  }

  /** So is a result that leaves a ready row as it was, in a state that was careful so far. */
  lemma SameResultIsCareful(s: State, id: nat)
    requires CarefulInv(s) && id in s.rows && s.rows[id].status.Ready?
    ensures Careful(s, Finish(id, true, s.rows[id].image))
  {
    assert Finished(s.rows, id, true, s.rows[id].image) == s.rows;
  }

  lemma Prepend(s: State, step: Step, rest: seq<Step>, t: State)
    requires Enabled(s, step) && Careful(s, step) && Leads(true, Apply(s, step), rest, t)
    ensures Leads(true, s, [step] + rest, t)
  {
    assert ([step] + rest)[1..] == rest;
  }

  lemma NotYetRolledOut(s: State, id: nat)
    requires Stands(s.rows, id) && s.rows[id].gen > 0 && !s.rows[id].pending && TargetOf(s.rows, id) !in s.completed
    ensures !RolledOut(s)
  {
  }

  /** A threat to a standing row carries itself out. */
  lemma ThreatComesTrue(s: State, id: nat, k: TaskId) returns (steps: seq<Step>, t: State)
    requires Inv(s) && Stands(s.rows, id) && s.rows[id].gen > 0 && TargetOf(s.rows, id) !in s.completed
    requires k in s.tasks && Threatens(s, k, id)
    ensures Leads(true, s, steps, t) && !RolledOut(t)
    decreases match s.tasks[k].phase case Waiting => 4 case Rolling => 4 case Rolled(_) => 3 case Resuming(_) => 3
        case Clearing => 1
  {
    assert TaskSound(s, s.tasks[k]) && RowSound(s, id, s.rows[id]);
    if s.tasks[k].phase.Clearing? {
      var cleared := Apply(s, Clear(k));
      StandsAfterClear(s, k, id);
      NotYetRolledOut(cleared, id);
      Prepend(s, Clear(k), [], cleared);
      steps, t := [Clear(k)] + [], cleared;
    } else {
      var step := match s.tasks[k].phase
                  case Waiting => Check(k)
                  case Rolling => Roll(k, false)
                  case Rolled(_) => Recheck(k)
                  case _ => Settle(k, false);
      assert !Matches(s.rows, id, s.tasks[k].target);
      assert !Current(s.rows, s.tasks[k].target);
      var n := Apply(s, step);
      StepKeepsInv(s, step);
      assert k in n.tasks && Threatens(n, k, id);
      var rest;
      rest, t := ThreatComesTrue(n, id, k);
      Prepend(s, step, rest, t);
      steps := [step] + rest;
    }
  }

  lemma StandsAfterClear(s: State, k: TaskId, id: nat)
    requires Enabled(s, Clear(k)) && Stands(s.rows, id)
    ensures Stands(Apply(s, Clear(k)).rows, id)
  {
    SameOrder(Apply(s, Clear(k)).rows, s.rows, id);
  }

  lemma InsecureIsLost(s: State, id: nat) returns (steps: seq<Step>, t: State)
    requires Inv(s) && Stands(s.rows, id) && !Secure(s, id)
    ensures Leads(true, s, steps, t) && !RolledOut(t)
  {
    if s.rows[id].pending {
      var k :| k in s.tasks && Threatens(s, k, id);
      steps, t := ThreatComesTrue(s, id, k);
    } else {
      NotYetRolledOut(s, id);
      steps, t := [], s;
    }
  }

  ghost predicate CanLose(s: State)
  {
    exists steps, t :: Leads(true, s, steps, t) && !RolledOut(t)
  }

  /** A build's update of its row can be followed, with careful steps only, by a state in which some latest
      recorded row is neither resumed by a restart nor rolled out, exactly when the update was not careful. */
  lemma FinishLosesExactlyWhenCareless(s: State, id: nat, ok: bool, image: string)
    requires CarefulInv(s) && id in s.rows
    ensures CanLose(Apply(s, Finish(id, ok, image))) <==> !Careful(s, Finish(id, ok, image))
  {
    var step := Finish(id, ok, image);
    var n := Apply(s, step);
    StepKeepsInv(s, step);
    if Careful(s, step) {
      StepKeepsCarefulInv(s, step);
      forall steps, t | Leads(true, n, steps, t) ensures RolledOut(t) {
        RunKeepsInv(true, n, steps, t);
        SecureIsRolledOut(t);
      }
    } else {
      var r :| Stands(n.rows, r) && !Secure(n, r);
      var steps, t := InsecureIsLost(n, r);
    }
  }
}

/** Runs that show what the rollout protocol does not cover. */
module RolloutRuns {
  import opened Basics
  import opened Deployments
  import opened Rollout

  const OLD := Version("main", "1111111", "aaaaaaa", "")
  const NEW := Version("main", "2222222", "aaaaaaa", "")

  lemma {:induction false} Extend(careful: bool, s: State, steps: seq<Step>, t: State, step: Step)
    requires Leads(careful, s, steps, t) && Enabled(t, step) && (careful ==> Careful(t, step))
    ensures Leads(careful, s, steps + [step], Apply(t, step))
    decreases |steps|
  {
    if steps == [] {
      assert [step][1..] == [];
    } else {
      assert (steps + [step])[1..] == steps[1..] + [step];
      Extend(careful, Apply(s, steps[0]), steps[1..], t, step);
    }
  }

  /** A build that finishes, then a crash before the ready deployment is recorded: a careful run ends with a
      latest ready row that no restart resumes and nothing rolled out. */
  lemma CrashBeforeTheRecordIsNotResumed() returns (steps: seq<Step>, s: State)
    ensures Leads(true, EMPTY, steps, s) && s.tasks == map[]
    ensures IsLatest(s.rows, "main", 1) && !Resumable(s.rows, 1) && s.completed == {} && s.superseded == {}
  {
    var built := Apply(EMPTY, Create(OLD));
    assert built.rows == map[1 := Row(OLD, "", Building, 0, false, 0)];
    steps := [Create(OLD)];
    assert Leads(true, EMPTY, steps, built) by { Extend(true, EMPTY, [], EMPTY, Create(OLD)); }
    Extend(true, EMPTY, steps, built, Finish(1, true, "image"));
    var ready := Apply(built, Finish(1, true, "image"));
    assert ready.rows == map[1 := Row(OLD, "image", Ready, 0, false, 0)];
    steps := steps + [Finish(1, true, "image")];
    Extend(true, EMPTY, steps, ready, Crash);
    steps, s := steps + [Crash], Apply(ready, Crash);
    assert ReadyOf(s.rows, "main") == {1};
  }

  const OLD_ROW := Row(OLD, "old", Ready, 0, true, 1)
  const NEW_ROW := Row(NEW, "new", Ready, 0, true, 1)
  const OLD_TARGET := Target(1, 1, "main", "1111111", "aaaaaaa", "old")

  /** The old deployment recorded, a build of the new one started, and the new one recorded from elsewhere. */
  lemma BothRecorded() returns (steps: seq<Step>, s: State)
    ensures Leads(false, EMPTY, steps, s)
    ensures s == State(map[1 := OLD_ROW, 2 := NEW_ROW], 3, 0, map[Notified(0) := Task(OLD_TARGET, Waiting)], {}, {})
  {
    var first := Record(OLD, "old", 1, Some(0));
    assert OfVersion(EMPTY.rows, OLD) == {};
    Extend(false, EMPTY, [], EMPTY, first);
    var a := Apply(EMPTY, first);
    assert a.rows == map[1 := OLD_ROW] && a.next == 2;
    Extend(false, EMPTY, [first], a, Create(NEW));
    var b := Apply(a, Create(NEW));
    assert b.rows == map[1 := OLD_ROW, 2 := Row(NEW, "", Building, 0, false, 0)] && b.next == 3;
    var second := Record(NEW, "new", 2, None);
    assert OfVersion(b.rows, NEW) == {2};
    Extend(false, EMPTY, [first] + [Create(NEW)], b, second);
    steps, s := [first] + [Create(NEW)] + [second], Apply(b, second);
  }

  /** A build that fails after its row was recorded from elsewhere takes the row away again; the deployment it
      had superseded is then the latest ready one, not pending, and was never rolled out. */
  lemma FailedBuildRevivesASupersededRow() returns (steps: seq<Step>, s: State)
    ensures Leads(false, EMPTY, steps, s)
    ensures IsLatest(s.rows, "main", 1) && s.rows[1].gen > 0 && !Resumable(s.rows, 1) && s.completed == {}
  {
    var prefix, both := BothRecorded();
    assert ReadyOf(both.rows, "main") == {1, 2};
    assert IsLatest(both.rows, "main", 2) && !Matches(both.rows, 2, OLD_TARGET);
    assert !Current(both.rows, OLD_TARGET);
    Extend(false, EMPTY, prefix, both, Check(Notified(0)));
    var found := Apply(both, Check(Notified(0)));
    assert found.rows == both.rows && found.completed == {};
    assert found.tasks == map[Notified(0) := Task(OLD_TARGET, Clearing)];
    Extend(false, EMPTY, prefix + [Check(Notified(0))], found, Clear(Notified(0)));
    var cleared := Apply(found, Clear(Notified(0)));
    assert cleared.rows == map[1 := OLD_ROW.(pending := false), 2 := NEW_ROW] && cleared.completed == {};
    Extend(false, EMPTY, prefix + [Check(Notified(0))] + [Clear(Notified(0))], cleared, Finish(2, false, ""));
    steps := prefix + [Check(Notified(0))] + [Clear(Notified(0))] + [Finish(2, false, "")];
    s := Apply(cleared, Finish(2, false, ""));
    assert ReadyOf(s.rows, "main") == {1};
  }
}

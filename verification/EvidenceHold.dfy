/** The evidence hold under the per-worker lock: threads that hold, release, destroy, replace or resume
    workers, in any interleaving. Every load of the row, every destruction and every error exit is a step. */
module EvidenceHold {

  datatype Resource = Machine | Volume | ReplicaPrefix

  datatype Plan = Hold | Release(destroy: bool) | Destroy | Replace | Resume

  /** Before the lock, after it, with the row loaded, past the check, or finished but still locked. */
  datatype Phase = Entering | Locked | Loaded(held: bool) | Cutting | Leaving

  datatype Thread = Thread(worker: string, plan: Plan, phase: Phase)

  /** `owner` has an entry for each taken lock; `intact` says what a worker still has. */
  datatype State = State(held: set<string>, owner: map<string, nat>, threads: map<nat, Thread>, intact: map<string,
      set<Resource>>)

  datatype Step =
    | Begin(k: nat, worker: string, plan: Plan)
    | Acquire(k: nat)
    | Load(k: nat)
    | Decide(k: nat)
    | Cut(k: nat, resource: Resource)
    | Provision(k: nat)
    | End(k: nat)

  /** What a plan may destroy once it is past the check. */
  function Reach(plan: Plan): set<Resource>
  {
    match plan
    case Destroy => {Machine, Volume, ReplicaPrefix}
    case Replace => {Machine, Volume, ReplicaPrefix}
    case Resume => {Machine, Volume}
    case _ => {}
  }

  predicate InPhase(s: State, k: nat, phase: Phase)
  {
    k in s.threads && s.threads[k].phase == phase
  }

  predicate Enabled(s: State, step: Step)
  {
    match step
    case Begin(k, _, _) => k !in s.threads
    case Acquire(k) => InPhase(s, k, Entering) && s.threads[k].worker !in s.owner
    case Load(k) => InPhase(s, k, Locked)
    case Decide(k) => k in s.threads && s.threads[k].phase.Loaded?
    case Cut(k, resource) => InPhase(s, k, Cutting) && resource in Reach(s.threads[k].plan)
    case Provision(k) => InPhase(s, k, Cutting)
    case End(k) => k in s.threads
  }

  function Intact(s: State, worker: string): set<Resource>
  {
    if worker in s.intact then s.intact[worker] else {}
  }

  function To(s: State, k: nat, phase: Phase): State
    requires k in s.threads
  {
    s.(threads := s.threads[k := s.threads[k].(phase := phase)])
  }

  /** What each path does with the row it loaded under the lock. */
  function Decided(s: State, k: nat, t: Thread): State
    requires k in s.threads && s.threads[k] == t && t.phase.Loaded?
  {
    match t.plan
    case Hold => To(s, k, Leaving).(held := s.held + {t.worker})
    case Release(destroy) =>
      var released := s.(held := s.held - {t.worker});
      if destroy then released.(threads := s.threads[k := Thread(t.worker, Destroy, Locked)])
          else To(released, k, Leaving)
    case _ => if t.phase.held then To(s, k, Leaving) else To(s, k, Cutting)
  }

  function Apply(s: State, step: Step): State
    requires Enabled(s, step)
  {
    match step
    case Begin(k, worker, plan) => s.(threads := s.threads[k := Thread(worker, plan, Entering)])
    case Acquire(k) => To(s, k, Locked).(owner := s.owner[s.threads[k].worker := k])
    case Load(k) => To(s, k, Loaded(s.threads[k].worker in s.held))
    case Decide(k) => Decided(s, k, s.threads[k])
    case Cut(k, resource) =>
      var w := s.threads[k].worker;
      s.(intact := s.intact[w := Intact(s, w) - {resource}])
    case Provision(k) => s.(intact := s.intact[s.threads[k].worker := {Machine, Volume, ReplicaPrefix}])
    case End(k) =>
      s.(threads := s.threads - {k},
         owner := if s.threads[k].phase.Entering? then s.owner else s.owner - {s.threads[k].worker})
  }

  ghost predicate Leads(s: State, steps: seq<Step>, t: State)
    decreases |steps|
  {
    if steps == [] then s == t else Enabled(s, steps[0]) && Leads(Apply(s, steps[0]), steps[1..], t)
  }

  // ---------------------------------------------------------------- the invariant

  /** Past the lock a thread owns it, what it loaded still stands, and it destroys only unheld workers. */
  predicate ThreadSound(s: State, k: nat, t: Thread)
  {
    && (!t.phase.Entering? ==> t.worker in s.owner && s.owner[t.worker] == k)
    && (t.phase.Loaded? ==> t.phase.held == (t.worker in s.held))
    && (t.phase.Cutting? ==> t.worker !in s.held)
  }

  /** A taken lock belongs to a thread that is past it. */
  predicate OwnerSound(s: State, w: string)
    requires w in s.owner
  {
    var k := s.owner[w];
    k in s.threads && s.threads[k].worker == w && !s.threads[k].phase.Entering?
  }

  ghost predicate Inv(s: State)
  {
    && (forall k :: k in s.threads ==> ThreadSound(s, k, s.threads[k]))
    && (forall w :: w in s.owner ==> OwnerSound(s, w))
  }

  lemma ThreadStep(s: State, step: Step, k: nat)
    requires Inv(s) && Enabled(s, step) && k in Apply(s, step).threads
    ensures ThreadSound(Apply(s, step), k, Apply(s, step).threads[k])
  {
    if k in s.threads { assert ThreadSound(s, k, s.threads[k]); }
    if !step.Begin? { assert ThreadSound(s, step.k, s.threads[step.k]); }
  }

  lemma OwnerStep(s: State, step: Step, w: string)
    requires Inv(s) && Enabled(s, step) && w in Apply(s, step).owner
    ensures OwnerSound(Apply(s, step), w)
  {
    if w in s.owner { assert OwnerSound(s, w); }
    if !step.Begin? { assert ThreadSound(s, step.k, s.threads[step.k]); }
  }

  lemma StepKeepsInv(s: State, step: Step)
    requires Inv(s) && Enabled(s, step)
    ensures Inv(Apply(s, step))
  {
    var n := Apply(s, step);
    forall k | k in n.threads ensures ThreadSound(n, k, n.threads[k]) { ThreadStep(s, step, k); }
    forall w | w in n.owner ensures OwnerSound(n, w) { OwnerStep(s, step, w); }
  }

  /** No thread running and no lock taken; holds and resources are whatever the database and the provider have. */
  predicate Quiet(s: State)
  {
    s.threads == map[] && s.owner == map[]
  }

  lemma {:induction false} RunKeepsInv(s: State, steps: seq<Step>, t: State)
    requires Inv(s) && Leads(s, steps, t)
    ensures Inv(t)
    decreases |steps|
  {
    if steps != [] {
      StepKeepsInv(s, steps[0]);
      RunKeepsInv(Apply(s, steps[0]), steps[1..], t);
    }
  }

  // ---------------------------------------------------------------- the promise

  /** What each step does to the holds: a Hold sets its worker's, a Release clears it, and nothing else touches
      any. */
  lemma HoldsChangeByPlan(s: State, step: Step, w: string)
    requires Enabled(s, step)
    ensures w in Apply(s, step).held <==>
              if step.Decide? && s.threads[step.k].worker == w && s.threads[step.k].plan.Hold? then true
              else if step.Decide? && s.threads[step.k].worker == w && s.threads[step.k].plan.Release? then false
              else w in s.held
  {
  }

  /** A plan that may destroy goes on exactly when the row it loaded is not held; a release that destroys loads the
      row again first. */
  lemma DecisionByPlan(s: State, k: nat)
    requires Inv(s) && Enabled(s, Decide(k))
    ensures var t, n := s.threads[k], Apply(s, Decide(k)).threads[k];
            && (t.plan.Destroy? || t.plan.Replace? || t.plan.Resume? ==>
                  n.plan == t.plan && (n.phase.Cutting? <==> t.worker !in s.held))
            && (t.plan == Release(true) ==> n == Thread(t.worker, Destroy, Locked))
            && (t.plan == Release(false) || t.plan.Hold? ==> n.phase.Leaving?)
  {
    assert ThreadSound(s, k, s.threads[k]);
  }

  /** The lock keeps a thread out exactly while another is past it for the same worker. */
  lemma LockIsPerWorker(s: State, k: nat)
    requires Inv(s) && InPhase(s, k, Entering)
    ensures Enabled(s, Acquire(k)) <==>
              forall j :: j in s.threads && s.threads[j].worker == s.threads[k].worker ==> s.threads[j].phase.Entering?
  {
    var w := s.threads[k].worker;
    if w in s.owner {
      assert OwnerSound(s, w);
    } else {
      forall j | j in s.threads && s.threads[j].worker == w ensures s.threads[j].phase.Entering? {
        assert ThreadSound(s, j, s.threads[j]);
      }
    }
  }

  /** Cutting takes one resource from the thread's own worker, and provisioning gives it all of them. */
  lemma ResourcesChange(s: State, k: nat, resource: Resource, w: string)
    ensures Enabled(s, Cut(k, resource)) ==>
              Intact(Apply(s, Cut(k, resource)), w)
              == if w == s.threads[k].worker then Intact(s, w) - {resource} else Intact(s, w)
    ensures Enabled(s, Provision(k)) ==>
              Intact(Apply(s, Provision(k)), w)
              == if w == s.threads[k].worker then {Machine, Volume, ReplicaPrefix} else Intact(s, w)
  {
  }

  /** In every interleaving no destructive step is ever enabled against a held worker. */
  lemma HeldWorkersAreNotCut(s: State, steps: seq<Step>, t: State, step: Step)
    requires Quiet(s) && Leads(s, steps, t) && Enabled(t, step) && step.Cut?
    ensures t.threads[step.k].worker !in t.held
  {
    RunKeepsInv(s, steps, t);
    assert ThreadSound(t, step.k, t.threads[step.k]);
  }

  /** The step releases this worker's hold. */
  predicate Releases(s: State, step: Step, w: string)
  {
    step.Decide? && step.k in s.threads && s.threads[step.k].worker == w && s.threads[step.k].plan.Release?
  }

  ghost predicate NeverReleased(s: State, steps: seq<Step>, w: string)
    decreases |steps|
  {
    steps == []
        || (Enabled(s, steps[0]) && !Releases(s, steps[0], w) && NeverReleased(Apply(s, steps[0]), steps[1..], w))
  }

  lemma {:induction false} HeldLosesNothing(s: State, steps: seq<Step>, t: State, w: string)
    requires Inv(s) && Leads(s, steps, t) && w in s.held && NeverReleased(s, steps, w)
    ensures w in t.held && Intact(s, w) <= Intact(t, w)
    decreases |steps|
  {
    if steps != [] {
      var step := steps[0];
      StepKeepsInv(s, step);
      if !step.Begin? { assert ThreadSound(s, step.k, s.threads[step.k]); }
      HeldLosesNothing(Apply(s, step), steps[1..], t, w);
    }
  }

  /** From the moment a thread decides to hold a worker until one decides to release it, whatever the other threads
      do, the worker keeps its machine, its volume and its replica prefix, and nobody can destroy any of them. */
  lemma HoldKeepsEvidence(s: State, before: seq<Step>, mid: State, k: nat, after: seq<Step>, t: State, w: string)
    requires Quiet(s) && Leads(s, before, mid) && Enabled(mid, Decide(k))
    requires mid.threads[k].plan.Hold? && mid.threads[k].worker == w
    requires Leads(Apply(mid, Decide(k)), after, t) && NeverReleased(Apply(mid, Decide(k)), after, w)
    ensures Intact(mid, w) <= Intact(t, w)
    ensures forall j, resource :: Enabled(t, Cut(j, resource)) ==> t.threads[j].worker != w
  {
    RunKeepsInv(s, before, mid);
    StepKeepsInv(mid, Decide(k));
    HeldLosesNothing(Apply(mid, Decide(k)), after, t, w);
    RunKeepsInv(Apply(mid, Decide(k)), after, t);
    forall j, resource | Enabled(t, Cut(j, resource)) ensures t.threads[j].worker != w {
      assert ThreadSound(t, j, t.threads[j]);
    }
  }

  /** A destroy or a replacement reaches everything a worker has, a resume all but its replica prefix. */
  predicate Destroys(plan: Plan, resource: Resource)
  {
    plan.Destroy? || plan.Replace? || (plan.Resume? && !resource.ReplicaPrefix?)
  }

  /** A run without a release that takes a resource from the worker. */
  ghost predicate Takes(s: State, steps: seq<Step>, t: State, w: string, resource: Resource)
  {
    Leads(s, steps, t) && NeverReleased(s, steps, w) && resource !in Intact(t, w)
  }

  lemma UnheldIsCut(s: State, w: string, plan: Plan, resource: Resource) returns (steps: seq<Step>, t: State)
    requires Quiet(s) && w !in s.held && Destroys(plan, resource)
    ensures Takes(s, steps, t, w, resource)
    ensures steps != [] && steps[0] == Begin(0, w, plan)
  {
    var a := Apply(s, Begin(0, w, plan));
    var b := Apply(a, Acquire(0));
    var c := Apply(b, Load(0));
    var d := Apply(c, Decide(0));
    t := Apply(d, Cut(0, resource));
    var last: seq<Step> := [Cut(0, resource)];
    assert last[1..] == [] && NeverReleased(t, [], w);
    assert Leads(d, last, t) && NeverReleased(d, last, w);
    steps := [Decide(0)] + last;
    assert steps[1..] == last && Leads(c, steps, t) && NeverReleased(c, steps, w);
    var rest := steps;
    steps := [Load(0)] + rest;
    assert steps[1..] == rest && Leads(b, steps, t) && NeverReleased(b, steps, w);
    rest := steps;
    steps := [Acquire(0)] + rest;
    assert steps[1..] == rest && Leads(a, steps, t) && NeverReleased(a, steps, w);
    rest := steps;
    steps := [Begin(0, w, plan)] + rest;
    assert steps[1..] == rest;
  }

  /** The hold is what protects: without a release some run takes a resource from the worker exactly when the worker
      is not held. */
  lemma LosesExactlyWhenUnheld(s: State, w: string, resource: Resource)
    requires Quiet(s) && resource in Intact(s, w)
    ensures (exists steps, t :: Takes(s, steps, t, w, resource)) <==> w !in s.held
  {
    if w in s.held {
      forall steps, t ensures !Takes(s, steps, t, w, resource) {
        if Takes(s, steps, t, w, resource) { HeldLosesNothing(s, steps, t, w); }
      }
    } else {
      var steps, t := UnheldIsCut(s, w, Destroy, resource);
    }
  }
}

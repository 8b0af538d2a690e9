/** The churn workloads: a job queue with receipts, and a cache. One operation is one transaction of one or two
    statements; the engine derives operation n from its configuration. Texts are modelled by their lengths. */
module Churn {
  import opened Basics

  datatype JobState = Ready | Claimed | Done | Expired
  datatype Job = Job(state: JobState, attempts: int, payload: nat)
  datatype CacheRow = CacheRow(length: nat, expires: int)

  datatype Tables = Tables(jobs: map<nat, Job>, receipts: set<nat>, cache: map<nat, CacheRow>)

  const NO_TABLES := Tables(map[], {}, map[])

  // ---------------------------------------------------------------- statements

  datatype Statement =
    | InsertJob(key: nat, size: nat)
    | MoveJob(key: nat, from: set<JobState>, to: JobState, attempt: int)
    | WriteReceipt(key: nat)
    | DeleteReceipt(key: nat)
    | DeleteJob(key: nat)
    | PutCache(key: nat, length: nat, expires: int)
    | EvictCache(tick: int)

  predicate InState(t: Tables, key: nat, states: set<JobState>)
  {
    key in t.jobs && t.jobs[key].state in states
  }

  /** The tables after one statement, and the rows it affected. */
  function Exec(t: Tables, s: Statement): (Tables, nat)
  {
    match s
    case InsertJob(key, size) =>
      if key in t.jobs then (t, 0) else (t.(jobs := t.jobs[key := Job(Ready, 0, size)]), 1)
    case MoveJob(key, from, to, attempt) =>
      if !InState(t, key, from) then (t, 0)
      else (t.(jobs := t.jobs[key := t.jobs[key].(state := to, attempts := t.jobs[key].attempts + attempt)]), 1)
    case WriteReceipt(key) =>
      if InState(t, key, {Done}) && key !in t.receipts then (t.(receipts := t.receipts + {key}), 1) else (t, 0)
    case DeleteReceipt(key) =>
      if InState(t, key, {Done, Expired}) && key in t.receipts then (t.(receipts := t.receipts - {key}), 1) else (t, 0)
    case DeleteJob(key) =>
      if InState(t, key, {Done, Expired}) then (t.(jobs := t.jobs - {key}), 1) else (t, 0)
    case PutCache(key, length, expires) => (t.(cache := t.cache[key := CacheRow(length, expires)]), 1)
    case EvictCache(tick) =>
      var gone := set id | id in t.cache && t.cache[id].expires <= tick;
      (t.(cache := t.cache - gone), |gone|)
  }

  function ExecAll(t: Tables, list: seq<Statement>): (Tables, nat)
  {
    if list == [] then (t, 0)
    else
      var (rest, n) := ExecAll(t, list[..|list| - 1]);
      var (next, m) := Exec(rest, list[|list| - 1]);
      (next, n + m)
  }

  /** The statements of an operation; none when it is unknown. */
  function Statements(mode: string, op: string, key: nat, tick: nat, size: nat): seq<Statement>
  {
    if mode == "queue" then
      if op == "enqueue" then [InsertJob(key, size)]
      else if op == "claim" then [MoveJob(key, {Ready}, Claimed, 1)]
      else if op == "retry" then [MoveJob(key, {Claimed}, Ready, 0)]
      else if op == "complete" then [MoveJob(key, {Claimed}, Done, 0), WriteReceipt(key)]
      else if op == "expire" then [MoveJob(key, {Ready, Claimed}, Expired, 0)]
      else if op == "delete" then [DeleteReceipt(key), DeleteJob(key)]
      else []
    else if mode == "cache" then
      if op == "upsert" then [PutCache(key, Digits(tick) + 1 + size, tick + 8)]
      else if op == "evict" then [EvictCache(tick)]
      else []
    else []
  }

  class ChurnDB {
    var t: Tables

    /** Apply: the database may fail at any statement or, past the last one, at the commit; then nothing of the
        transaction stays. */
    method Apply(mode: string, op: string, key: nat, tick: nat, size: nat, failAt: Option<nat>) returns (r: Result<nat>)
      modifies this
      ensures var list := Statements(mode, op, key, tick, size);
              && (r.Ok? <==> list != [] && (failAt.Some? ==> failAt.value > |list|))
              && (r.Ok? ==> (t, r.value) == ExecAll(old(t), list))
              && (r.Err? ==> t == old(t))
    {
      var begun := t;
      var list := Statements(mode, op, key, tick, size);
      if list == [] { return Err; }
      var mutations := 0;
      for i := 0 to |list|
        invariant (t, mutations) == ExecAll(begun, list[..i])
        invariant failAt.Some? ==> failAt.value >= i
      {
        if failAt == Some(i) { t := begun; return Err; }
        assert list[..i + 1][..i] == list[..i];
        var (next, n) := Exec(t, list[i]);
        t := next;
        mutations := mutations + n;
      }
      assert list[..|list|] == list;
      if failAt == Some(|list|) { t := begun; return Err; }
      return Ok(mutations);
    }

    /** Validate: accepts exactly the sound tables of a known mode. */
    method Validate(mode: string, slots: nat) returns (ok: bool)
      ensures ok <==> (mode == "queue" && QueueSound(t, slots)) || (mode == "cache" && CacheSound(t, slots))
    {
      if mode == "queue" {
        var jobs := set id | id in t.jobs && !JobSound(id, t.jobs[id], slots);
        var orphans := set id | id in t.receipts && !InState(t, id, {Done});
        var missing := set id | id in t.jobs && t.jobs[id].state.Done? && id !in t.receipts;
        NoViolations(t, slots, jobs, orphans, missing);
        return |jobs| + |orphans| + |missing| == 0;
      } else if mode == "cache" {
        var rows := set id | id in t.cache && !RowSound(id, t.cache[id], slots);
        NoBadRows(t, slots, rows);
        return |rows| == 0;
      }
      return false;
    }
  }

  predicate JobSound(id: nat, job: Job, slots: nat)
  {
    id < slots && job.attempts >= 0 && (job.state.Claimed? || job.state.Done? ==> job.attempts != 0)
  }

  predicate RowSound(id: nat, row: CacheRow, slots: nat)
  {
    id < slots && row.expires >= 0 && row.length != 0
  }

  /** Keys in range, claimed and done jobs attempted, and receipts exactly for the done jobs. */
  ghost predicate QueueSound(t: Tables, slots: nat)
  {
    && (forall id :: id in t.jobs ==> JobSound(id, t.jobs[id], slots))
    && (forall id :: id in t.receipts <==> InState(t, id, {Done}))
  }

  ghost predicate CacheSound(t: Tables, slots: nat)
  {
    forall id :: id in t.cache ==> RowSound(id, t.cache[id], slots)
  }

  /** What makes Validate complain. */
  lemma UnsoundTables(t: Tables, slots: nat, id: nat)
    ensures id in t.cache && (id >= slots || t.cache[id].expires < 0 || t.cache[id].length == 0) ==>
              !CacheSound(t, slots)
    ensures id in t.jobs && (id >= slots || t.jobs[id].attempts < 0) ==> !QueueSound(t, slots)
    ensures id in t.jobs && t.jobs[id].attempts == 0 && t.jobs[id].state in {Claimed, Done} ==> !QueueSound(t, slots)
    ensures (id in t.receipts) != (id in t.jobs && t.jobs[id].state == Done) ==> !QueueSound(t, slots)
  {
    if QueueSound(t, slots) { assert id in t.receipts <==> InState(t, id, {Done}); }
  }

  lemma NoViolations(t: Tables, slots: nat, jobs: set<nat>, orphans: set<nat>, missing: set<nat>)
    requires jobs == set id | id in t.jobs && !JobSound(id, t.jobs[id], slots)
    requires orphans == set id | id in t.receipts && !InState(t, id, {Done})
    requires missing == set id | id in t.jobs && t.jobs[id].state.Done? && id !in t.receipts
    ensures QueueSound(t, slots) <==> jobs == {} && orphans == {} && missing == {}
  {
    if jobs == {} && orphans == {} && missing == {} {
      forall id | id in t.jobs ensures JobSound(id, t.jobs[id], slots) { assert id !in jobs; }
      forall id ensures id in t.receipts <==> InState(t, id, {Done}) { assert id !in orphans && id !in missing; }
    }
  }

  lemma NoBadRows(t: Tables, slots: nat, rows: set<nat>)
    requires rows == set id | id in t.cache && !RowSound(id, t.cache[id], slots)
    ensures CacheSound(t, slots) <==> rows == {}
  {
    if rows == {} {
      forall id | id in t.cache ensures RowSound(id, t.cache[id], slots) { assert id !in rows; }
    }
  }

  // ---------------------------------------------------------------- generated operations

  datatype Config = Config(slots: nat, hotPercent: nat, workers: nat, rate: nat, payloadSize: nat, seed: nat)

  predicate ValidConfig(c: Config)
  {
    1 <= c.slots <= 1000000 && c.hotPercent <= 100 && 1 <= c.workers <= 64 && 1 <= c.rate <= 100000
        && 1 <= c.payloadSize <= 65536
  }

  const WORD_SIZE: nat := 0x1_0000_0000_0000_0000
  const QUEUE_OPS := ["enqueue", "claim", "retry", "claim", "complete", "delete", "enqueue", "expire", "delete"]
  const CACHE_OPS := ["upsert", "upsert", "evict"]

  function Ops(mode: string): seq<string>
  {
    if mode == "cache" then CACHE_OPS else QUEUE_OPS
  }

  datatype Operation = Operation(name: string, key: nat, tick: nat)

  /** One multiplicative hash of the group, modulo 2^64. */
  function Hash(c: Config, group: nat): nat
  {
    ((group + c.seed) * 6364136223846793005 + 1442695040888963407) % WORD_SIZE
  }

  /** The key of a group: hot groups stay in the first tenth of the slots, or the first one. */
  function KeyOf(c: Config, group: nat): (key: nat)
    requires ValidConfig(c)
    ensures key < c.slots
    ensures Hash(c, group) % 100 < c.hotPercent ==> key == 0 || 10 * key < c.slots
  {
    var h := Hash(c, group);
    var slots := if h % 100 < c.hotPercent then (if c.slots / 10 > 1 then c.slots / 10 else 1) else c.slots;
    (h / 65536) % slots
  }

  /** Operation n: its name from the cycle, its key from its group. */
  function OperationAt(c: Config, mode: string, n: nat): (op: Operation)
    requires ValidConfig(c)
    ensures op.key < c.slots && op.name in Ops(mode) && op.tick == n
  {
    var ops := Ops(mode);
    Operation(ops[n % |ops|], KeyOf(c, n / |ops|), n)
  }

  /** The names come round in turn, nine of them for a queue and three for a cache, and each round has one key. */
  lemma NamesComeRound(c: Config, mode: string, n: nat)
    requires ValidConfig(c)
    ensures var op := OperationAt(c, mode, n);
            if mode == "cache" then
              op.name == ["upsert", "upsert", "evict"][n % 3] && op.key == KeyOf(c, n / 3)
            else
              && op.key == KeyOf(c, n / 9)
              && op.name ==
                   ["enqueue", "claim", "retry", "claim", "complete", "delete", "enqueue", "expire", "delete"][n % 9]
  {
  }

  /** The hash of the first two groups without a seed: the increment, and the multiplier with it. */
  lemma FirstHashes(c: Config)
    requires c.seed == 0
    ensures Hash(c, 0) == 1_442_695_040_888_963_407 && Hash(c, 1) == 7_806_831_264_735_756_412
  {
  }

  // ---------------------------------------------------------------- every run

  /** One attempted operation: which, and where its transaction failed, if it did. Workers may attempt
      operations in any order. */
  datatype Attempt = Attempt(n: nat, failAt: Option<nat>)

  /** The operations in the order they are generated. */
  type Plan = nat -> Operation

  function PlanOf(c: Config, mode: string): Plan
    requires ValidConfig(c)
  {
    (n: nat) => OperationAt(c, mode, n)
  }

  function After(plan: Plan, mode: string, size: nat, attempts: seq<Attempt>): Tables
  {
    if attempts == [] then NO_TABLES
    else
      var rest, a := After(plan, mode, size, attempts[..|attempts| - 1]), attempts[|attempts| - 1];
      var op := plan(a.n);
      var list := Statements(mode, op.name, op.key, op.tick, size);
      if a.failAt.Some? && a.failAt.value <= |list| then rest else ExecAll(rest, list).0
  }

  lemma OneStatement(t: Tables, s: Statement)
    ensures ExecAll(t, [s]) == Exec(t, s)
  {
    assert [s][..0] == [];
    assert ExecAll(t, [s][..0]) == (t, 0);
  }

  lemma TwoStatements(t: Tables, a: Statement, b: Statement)
    ensures ExecAll(t, [a, b]).0 == Exec(Exec(t, a).0, b).0
  {
    assert [a, b][..1] == [a];
    OneStatement(t, a);
  }

  /** A single statement that moves no job into or out of done keeps the queue sound. */
  lemma QueueStatement(t: Tables, s: Statement, slots: nat)
    requires QueueSound(t, slots) && ((s.InsertJob? && s.key < slots) || s.MoveJob?)
    requires s.MoveJob? ==> Done !in s.from && !s.to.Done? && s.attempt >= 0 && (s.to.Claimed? ==> s.attempt > 0)
    ensures QueueSound(Exec(t, s).0, slots)
  {
    if s.key in t.jobs { assert JobSound(s.key, t.jobs[s.key], slots); }
  }

  lemma CompleteOperation(t: Tables, key: nat, slots: nat)
    requires QueueSound(t, slots)
    ensures QueueSound(Exec(Exec(t, MoveJob(key, {Claimed}, Done, 0)).0, WriteReceipt(key)).0, slots)
  {
    if key in t.jobs { assert JobSound(key, t.jobs[key], slots); }
  }

  lemma DeleteOperation(t: Tables, key: nat, slots: nat)
    requires QueueSound(t, slots)
    ensures QueueSound(Exec(Exec(t, DeleteReceipt(key)).0, DeleteJob(key)).0, slots)
  {
  }

  lemma QueueOperation(t: Tables, op: string, key: nat, tick: nat, size: nat, slots: nat)
    requires QueueSound(t, slots) && key < slots
    ensures QueueSound(ExecAll(t, Statements("queue", op, key, tick, size)).0, slots)
  {
    var list := Statements("queue", op, key, tick, size);
    if |list| == 1 {
      assert list == [list[0]];
      OneStatement(t, list[0]);
      QueueStatement(t, list[0], slots);
    } else if |list| == 2 {
      assert list == [list[0], list[1]];
      TwoStatements(t, list[0], list[1]);
      CompleteOperation(t, key, slots);
      DeleteOperation(t, key, slots);
    }
  }

  lemma CacheOperation(t: Tables, op: string, key: nat, tick: nat, size: nat, slots: nat)
    requires CacheSound(t, slots) && key < slots
    ensures CacheSound(ExecAll(t, Statements("cache", op, key, tick, size)).0, slots)
  {
    var list := Statements("cache", op, key, tick, size);
    if |list| == 1 {
      assert list == [list[0]];
      OneStatement(t, list[0]);
    }
  }

  lemma {:induction false} RunIsSound(plan: Plan, size: nat, slots: nat, attempts: seq<Attempt>)
    requires forall n :: plan(n).key < slots
    ensures QueueSound(After(plan, "queue", size, attempts), slots)
    ensures CacheSound(After(plan, "cache", size, attempts), slots)
  {
    if attempts != [] {
      var rest, op := attempts[..|attempts| - 1], plan(attempts[|attempts| - 1].n);
      RunIsSound(plan, size, slots, rest);
      QueueOperation(After(plan, "queue", size, rest), op.name, op.key, op.tick, size, slots);
      CacheOperation(After(plan, "cache", size, rest), op.name, op.key, op.tick, size, slots);
    }
  }

  /** For every accepted configuration and every order of committed and rolled-back generated operations, the
      tables are sound, so Validate finds no violation. */
  lemma EveryRunIsSound(c: Config, attempts: seq<Attempt>)
    requires ValidConfig(c)
    ensures QueueSound(After(PlanOf(c, "queue"), "queue", c.payloadSize, attempts), c.slots)
    ensures CacheSound(After(PlanOf(c, "cache"), "cache", c.payloadSize, attempts), c.slots)
  {
    RunIsSound(PlanOf(c, "queue"), c.payloadSize, c.slots, attempts);
    RunIsSound(PlanOf(c, "cache"), c.payloadSize, c.slots, attempts);
  }

  // ---------------------------------------------------------------- a job's life

  function StateOf(t: Tables, id: nat): Option<JobState>
  {
    if id in t.jobs then Some(t.jobs[id].state) else None
  }

  /** Where an operation takes its job: the only moves there are. */
  function NextState(op: string, state: Option<JobState>): Option<JobState>
  {
    match state
    case None => if op == "enqueue" then Some(Ready) else None
    case Some(Ready) => if op == "claim" then Some(Claimed) else if op == "expire" then Some(Expired) else state
    case Some(Claimed) =>
      if op == "retry" then Some(Ready)
      else if op == "complete" then Some(Done)
      else if op == "expire" then Some(Expired)
      else state
    case Some(Done) => if op == "delete" then None else state
    case Some(Expired) => if op == "delete" then None else state
  }

  function Attempts(t: Tables, id: nat): int
  {
    if id in t.jobs then t.jobs[id].attempts else 0
  }

  ghost predicate MovesJob(t: Tables, u: Tables, op: string, key: nat, id: nat)
  {
    if id != key then StateOf(u, id) == StateOf(t, id) && Attempts(u, id) == Attempts(t, id)
    else
      && StateOf(u, id) == NextState(op, StateOf(t, id))
      && (StateOf(u, id).Some? ==>
            Attempts(u, id) == Attempts(t, id) + if op == "claim" && StateOf(t, id) == Some(Ready) then 1 else 0)
      && (id in u.receipts <==> StateOf(u, id) == Some(Done))
  }

  lemma SingleMoves(t: Tables, op: string, key: nat, size: nat, slots: nat, id: nat)
    requires QueueSound(t, slots)
    ensures op == "enqueue" ==> MovesJob(t, Exec(t, InsertJob(key, size)).0, op, key, id)
    ensures op == "claim" ==> MovesJob(t, Exec(t, MoveJob(key, {Ready}, Claimed, 1)).0, op, key, id)
    ensures op == "retry" ==> MovesJob(t, Exec(t, MoveJob(key, {Claimed}, Ready, 0)).0, op, key, id)
    ensures op == "expire" ==> MovesJob(t, Exec(t, MoveJob(key, {Ready, Claimed}, Expired, 0)).0, op, key, id)
  {
  }

  lemma DoubleMoves(t: Tables, op: string, key: nat, slots: nat, id: nat)
    requires QueueSound(t, slots)
    ensures op == "complete" ==>
              MovesJob(t, Exec(Exec(t, MoveJob(key, {Claimed}, Done, 0)).0, WriteReceipt(key)).0, op, key, id)
    ensures op == "delete" ==>
              MovesJob(t, Exec(Exec(t, DeleteReceipt(key)).0, DeleteJob(key)).0, op, key, id)
  {
  }

  /** Every queue operation takes its own job one move along its life, counts an attempt exactly when it claims, gives
      a receipt exactly when it completes, and touches no other job. */
  lemma OperationMovesItsJob(t: Tables, op: string, key: nat, tick: nat, size: nat, slots: nat, id: nat)
    requires QueueSound(t, slots) && op in QUEUE_OPS
    ensures MovesJob(t, ExecAll(t, Statements("queue", op, key, tick, size)).0, op, key, id)
  {
    var list := Statements("queue", op, key, tick, size);
    SingleMoves(t, op, key, size, slots, id);
    DoubleMoves(t, op, key, slots, id);
    if |list| == 1 {
      assert list == [list[0]];
      OneStatement(t, list[0]);
    } else {
      assert list == [list[0], list[1]];
      TwoStatements(t, list[0], list[1]);
    }
  }

  // ---------------------------------------------------------------- what the cache holds

  /** The attempt committed this cache operation. */
  predicate Commits(plan: Plan, a: Attempt, op: string)
  {
    plan(a.n).name == op && (a.failAt.None? || a.failAt.value > 1)
  }

  /** The row of this key goes: it is written anew, or evicted at its expiry, eight ticks on, or later. */
  predicate Ends(plan: Plan, a: Attempt, id: nat, tick: nat)
  {
    || (Commits(plan, a, "upsert") && plan(a.n).key == id)
    || (Commits(plan, a, "evict") && plan(a.n).tick >= tick + 8)
  }

  /** The key was last written by attempt `i`, and nothing has evicted it since. */
  ghost predicate WrittenBy(plan: Plan, attempts: seq<Attempt>, i: nat, id: nat)
  {
    && i < |attempts| && Commits(plan, attempts[i], "upsert") && plan(attempts[i].n).key == id
    && forall j :: i < j < |attempts| ==> !Ends(plan, attempts[j], id, plan(attempts[i].n).tick)
  }

  lemma CacheStatement(t: Tables, op: string, key: nat, tick: nat, size: nat, id: nat)
    ensures var u := ExecAll(t, Statements("cache", op, key, tick, size)).0;
            if op == "upsert" && key == id then id in u.cache && u.cache[id] == RowOf(tick, size)
            else if op == "evict" && id in t.cache && t.cache[id].expires <= tick then id !in u.cache
            else (id in u.cache <==> id in t.cache) && (id in t.cache ==> u.cache[id] == t.cache[id])
  {
    var list := Statements("cache", op, key, tick, size);
    if list != [] {
      assert list == [list[0]];
      OneStatement(t, list[0]);
    }
  }

  /** What an attempt does to who wrote a key. */
  lemma WrittenNext(plan: Plan, attempts: seq<Attempt>, i: nat, id: nat)
    requires attempts != []
    ensures var n := |attempts| - 1;
            WrittenBy(plan, attempts, i, id) <==>
              if i == n then Commits(plan, attempts[n], "upsert") && plan(attempts[n].n).key == id
              else i < n && WrittenBy(plan, attempts[..n], i, id)
                         && !Ends(plan, attempts[n], id, plan(attempts[i].n).tick)
  {
    var n := |attempts| - 1;
    assert forall j :: 0 <= j < n ==> attempts[..n][j] == attempts[j];
    if i < n && WrittenBy(plan, attempts[..n], i, id) {
      forall j | i < j < n ensures !Ends(plan, attempts[j], id, plan(attempts[i].n).tick) {
        assert attempts[..n][j] == attempts[j];
      }
    }
    if i < n && WrittenBy(plan, attempts, i, id) {
      forall j | i < j < n ensures !Ends(plan, attempts[..n][j], id, plan(attempts[..n][i].n).tick) {
        assert attempts[..n][j] == attempts[j];
      }
    }
  }

  /** The cache has a row for a key exactly when one upsert of it is neither overwritten nor evicted since, and the row
      is that upsert's. */
  ghost predicate Follows(cache: map<nat, CacheRow>, plan: Plan, size: nat, attempts: seq<Attempt>, id: nat)
  {
    && (id in cache ==> exists i: nat :: WrittenBy(plan, attempts, i, id))
    && forall i: nat :: WrittenBy(plan, attempts, i, id) ==>
         id in cache && cache[id] == RowOf(plan(attempts[i].n).tick, size)
  }

  function RowOf(tick: nat, size: nat): CacheRow
  {
    CacheRow(Digits(tick) + 1 + size, tick + 8)
  }

  lemma FollowsNext(plan: Plan, size: nat, attempts: seq<Attempt>, before: Tables, after: Tables, id: nat)
    requires attempts != [] && Follows(before.cache, plan, size, attempts[..|attempts| - 1], id)
    requires var a, op := attempts[|attempts| - 1], plan(attempts[|attempts| - 1].n);
             var list := Statements("cache", op.name, op.key, op.tick, size);
             after == if a.failAt.Some? && a.failAt.value <= |list| then before else ExecAll(before, list).0
    ensures Follows(after.cache, plan, size, attempts, id)
  {
    var n := |attempts| - 1;
    var op := plan(attempts[n].n);
    CacheStatement(before, op.name, op.key, op.tick, size, id);
    forall i: nat | WrittenBy(plan, attempts, i, id)
      ensures id in after.cache && after.cache[id] == RowOf(plan(attempts[i].n).tick, size)
    {
      WrittenNext(plan, attempts, i, id);
    }
    if id in after.cache {
      if Commits(plan, attempts[n], "upsert") && op.key == id {
        WrittenNext(plan, attempts, n, id);
      } else {
        var i: nat :| WrittenBy(plan, attempts[..n], i, id);
        WrittenNext(plan, attempts, i, id);
      }
    }
  }

  /** In every order of committed and rolled-back operations. */
  lemma {:induction false} CacheHoldsTheLastWrite(plan: Plan, size: nat, attempts: seq<Attempt>, id: nat)
    ensures Follows(After(plan, "cache", size, attempts).cache, plan, size, attempts, id)
    decreases |attempts|
  {
    if attempts != [] {
      var rest := attempts[..|attempts| - 1];
      CacheHoldsTheLastWrite(plan, size, rest, id);
      FollowsNext(plan, size, attempts, After(plan, "cache", size, rest), After(plan, "cache", size, attempts), id);
    }
  }

  // ---------------------------------------------------------------- a group, run in order

  function RunOps(t: Tables, ops: seq<string>, key: nat, size: nat): Tables
  {
    if ops == [] then t
    else ExecAll(RunOps(t, ops[..|ops| - 1], key, size), Statements("queue", ops[|ops| - 1], key, 0, size)).0
  }

  function With(t: Tables, key: nat, job: Job): Tables
  {
    t.(jobs := t.jobs[key := job])
  }

  lemma OneOp(t: Tables, ops: seq<string>, n: nat, key: nat, size: nat)
    requires n < |ops|
    ensures RunOps(t, ops[..n + 1], key, size)
        == ExecAll(RunOps(t, ops[..n], key, size), Statements("queue", ops[n], key, 0, size)).0
  {
    assert ops[..n + 1][..n] == ops[..n];
  }

  lemma Enqueues(t: Tables, n: nat, key: nat, size: nat)
    requires (n == 0 || n == 6) && key !in t.jobs && RunOps(t, QUEUE_OPS[..n], key, size) == t
    ensures RunOps(t, QUEUE_OPS[..n + 1], key, size) == With(t, key, Job(Ready, 0, size))
  {
    OneOp(t, QUEUE_OPS, n, key, size);
    OneStatement(t, InsertJob(key, size));
  }

  lemma Moves(t: Tables, n: nat, key: nat, size: nat, job: Job, from: set<JobState>, to: JobState, attempt: int)
    requires n < 9 && Statements("queue", QUEUE_OPS[n], key, 0, size) == [MoveJob(key, from, to, attempt)]
    requires job.state in from
    requires RunOps(t, QUEUE_OPS[..n], key, size) == With(t, key, job)
    ensures RunOps(t, QUEUE_OPS[..n + 1], key, size)
        == With(t, key, job.(state := to, attempts := job.attempts + attempt))
  {
    OneOp(t, QUEUE_OPS, n, key, size);
    OneStatement(With(t, key, job), MoveJob(key, from, to, attempt));
  }

  lemma ClaimsTwice(t: Tables, key: nat, size: nat)
    requires key !in t.jobs
    ensures RunOps(t, QUEUE_OPS[..4], key, size) == With(t, key, Job(Claimed, 2, size))
  {
    Enqueues(t, 0, key, size);
    Moves(t, 1, key, size, Job(Ready, 0, size), {Ready}, Claimed, 1);
    Moves(t, 2, key, size, Job(Claimed, 1, size), {Claimed}, Ready, 0);
    Moves(t, 3, key, size, Job(Ready, 1, size), {Ready}, Claimed, 1);
  }

  lemma Completes(t: Tables, key: nat, size: nat)
    requires key !in t.jobs && key !in t.receipts
    ensures RunOps(t, QUEUE_OPS[..5], key, size) == With(t, key, Job(Done, 2, size)).(receipts := t.receipts + {key})
  {
    ClaimsTwice(t, key, size);
    OneOp(t, QUEUE_OPS, 4, key, size);
    TwoStatements(With(t, key, Job(Claimed, 2, size)), MoveJob(key, {Claimed}, Done, 0), WriteReceipt(key));
  }

  lemma Expires(t: Tables, key: nat, size: nat)
    requires key !in t.jobs && key !in t.receipts && RunOps(t, QUEUE_OPS[..6], key, size) == t
    ensures RunOps(t, QUEUE_OPS[..8], key, size) == With(t, key, Job(Expired, 0, size))
  {
    Enqueues(t, 6, key, size);
    Moves(t, 7, key, size, Job(Ready, 0, size), {Ready, Claimed}, Expired, 0);
  }

  /** A group of nine takes one job through its whole life twice, done and expired, and leaves nothing. */
  lemma GroupLeavesNothing(t: Tables, key: nat, size: nat)
    requires key !in t.jobs && key !in t.receipts
    ensures RunOps(t, QUEUE_OPS, key, size) == t
  {
    Completes(t, key, size);
    OneOp(t, QUEUE_OPS, 5, key, size);
    var done := With(t, key, Job(Done, 2, size)).(receipts := t.receipts + {key});
    TwoStatements(done, DeleteReceipt(key), DeleteJob(key));
    assert done.jobs - {key} == t.jobs && done.receipts - {key} == t.receipts;
    assert RunOps(t, QUEUE_OPS[..6], key, size) == t;
    Expires(t, key, size);
    OneOp(t, QUEUE_OPS, 8, key, size);
    var expired := With(t, key, Job(Expired, 0, size));
    TwoStatements(expired, DeleteReceipt(key), DeleteJob(key));
    assert expired.jobs - {key} == t.jobs;
    assert QUEUE_OPS[..9] == QUEUE_OPS;
  }

  predicate InTurn(attempts: seq<Attempt>)
  {
    forall i :: 0 <= i < |attempts| ==> attempts[i] == Attempt(i, None)
  }

  lemma GroupOf(c: Config, group: nat, i: nat)
    requires ValidConfig(c) && i < 9
    ensures OperationAt(c, "queue", 9 * group + i) == Operation(QUEUE_OPS[i], KeyOf(c, group), 9 * group + i)
  {
    assert (9 * group + i) / 9 == group && (9 * group + i) % 9 == i;
  }

  lemma QueueIgnoresTick(op: string, key: nat, tick: nat, size: nat)
    ensures Statements("queue", op, key, tick, size) == Statements("queue", op, key, 0, size)
  {
  }

  /** The operations from `base` on have these names, all with one key. */
  ghost predicate HasNames(plan: Plan, base: nat, key: nat, ops: seq<string>)
  {
    forall i: nat :: i < |ops| ==> plan(base + i) == Operation(ops[i], key, base + i)
  }

  ghost predicate IsGroup(plan: Plan, base: nat, key: nat)
  {
    HasNames(plan, base, key, QUEUE_OPS)
  }

  lemma AfterNext(plan: Plan, size: nat, attempts: seq<Attempt>, op: Operation)
    requires InTurn(attempts) && attempts != [] && op == plan(|attempts| - 1)
    ensures After(plan, "queue", size, attempts)
         == ExecAll(After(plan, "queue", size, attempts[..|attempts| - 1]),
             Statements("queue", op.name, op.key, 0, size)).0
  {
    QueueIgnoresTick(op.name, op.key, op.tick, size);
  }

  lemma {:induction false} PartOfGroup(plan: Plan, size: nat, attempts: seq<Attempt>, base: nat, key: nat,
                                       ops: seq<string>, i: nat, t: Tables)
    requires InTurn(attempts) && i <= |ops| && |attempts| == base + i && HasNames(plan, base, key, ops)
    requires t == After(plan, "queue", size, attempts[..base])
    ensures After(plan, "queue", size, attempts) == RunOps(t, ops[..i], key, size)
    decreases i
  {
    if i == 0 {
      assert attempts[..base] == attempts;
    } else {
      var j := i - 1;
      var rest := attempts[..base + j];
      assert rest[..base] == attempts[..base];
      PartOfGroup(plan, size, rest, base, key, ops, j, t);
      AfterNext(plan, size, attempts, plan(base + j));
      OneOp(t, ops, j, key, size);
    }
  }

  lemma {:induction false} GroupsLeaveNothing(plan: Plan, keys: seq<nat>, size: nat, attempts: seq<Attempt>)
    requires InTurn(attempts) && |attempts| == 9 * |keys|
    requires forall g: nat :: g < |keys| ==> IsGroup(plan, 9 * g, keys[g])
    ensures After(plan, "queue", size, attempts) == NO_TABLES
    decreases |keys|
  {
    if keys != [] {
      var g := |keys| - 1;
      GroupsLeaveNothing(plan, keys[..g], size, attempts[..9 * g]);
      PartOfGroup(plan, size, attempts, 9 * g, keys[g], QUEUE_OPS, 9, NO_TABLES);
      assert QUEUE_OPS[..9] == QUEUE_OPS;
      GroupLeavesNothing(NO_TABLES, keys[g], size);
    }
  }

  lemma GeneratedGroup(c: Config, g: nat)
    requires ValidConfig(c)
    ensures IsGroup(PlanOf(c, "queue"), 9 * g, KeyOf(c, g))
  {
    forall i: nat | i < 9
      ensures PlanOf(c, "queue")(9 * g + i) == Operation(QUEUE_OPS[i], KeyOf(c, g), 9 * g + i)
    {
      GroupOf(c, g, i);
    }
  }

  function GroupKeys(c: Config, groups: nat): (keys: seq<nat>)
    requires ValidConfig(c)
    ensures |keys| == groups && forall g: nat :: g < groups ==> keys[g] == KeyOf(c, g)
  {
    if groups == 0 then [] else GroupKeys(c, groups - 1) + [KeyOf(c, groups - 1)]
  }

  /** Run in order and without failures, whole groups leave the queue as empty as it began. */
  lemma WholeGroupsLeaveNothing(c: Config, attempts: seq<Attempt>, groups: nat)
    requires ValidConfig(c) && InTurn(attempts) && |attempts| == 9 * groups
    ensures After(PlanOf(c, "queue"), "queue", c.payloadSize, attempts) == NO_TABLES
  {
    var plan, keys := PlanOf(c, "queue"), GroupKeys(c, groups);
    forall g: nat | g < |keys| ensures IsGroup(plan, 9 * g, keys[g]) { GeneratedGroup(c, g); }
    GroupsLeaveNothing(plan, keys, c.payloadSize, attempts);
  }
}

/** Runs that show why the collector needs what it needs: the lock around a store, a covered journal copy,
    and its scan order. Each run ends in a row whose blob is gone. */
module ProfileBlobSweepRuns {
  import opened Basics
  import opened ProfileSnapshot
  import opened ProfileBlobStore
  import opened ProfileBlobSweep
  import opened ProfileBlobLoss

  const BODY := Text("record")
  const REPORTED: Fields := map[ArrayOf(Records) := Array([BODY])]
  const COMPACT: Fields := map[RefsOf(Records) := EncodeIds([1])]
  const ONE_BLOB: Blobs := map[1 := BODY]

  lemma CompactRow()
    ensures IsCompaction(REPORTED, COMPACT, ONE_BLOB)
    ensures RefIds(COMPACT) == {1}
    ensures forall blobs: Blobs :: 1 !in blobs ==> Expand(blobs, COMPACT) == Err
    ensures REPORTED.Keys !! REF_KEYS
  {
    DecodeEncode([1]);
    assert Names(ONE_BLOB, [1], REPORTED[ArrayOf(Records)].items);
    forall blobs: Blobs | 1 !in blobs
      ensures Expand(blobs, COMPACT) == Err
    {
      assert Load(blobs, [1]) == Err by { assert [1][0] !in blobs; }
    }
  }

  lemma {:induction false} Join(order: seq<Column>, careful: bool, s: State, a: seq<Step>, t: State, b: seq<Step>,
                                u: State)
    requires Leads(order, careful, s, a, t) && Leads(order, careful, t, b, u)
    ensures Leads(order, careful, s, a + b, u)
    decreases |a|
  {
    if a == [] {
      assert a + b == b;
    } else {
      assert (a + b)[1..] == a[1..] + b;
      Join(order, careful, Apply(order, s, a[0]), a[1..], t, b, u);
    }
  }

  lemma One(order: seq<Column>, careful: bool, s: State, step: Step)
    requires Enabled(order, s, step) && (careful ==> Allowed(order, s, step))
    ensures Leads(order, careful, s, [step], Apply(order, s, step))
  {
    assert [step][1..] == [];
  }

  lemma Two(order: seq<Column>, careful: bool, s: State, a: Step, b: Step)
    requires Enabled(order, s, a) && (careful ==> Allowed(order, s, a))
    requires Enabled(order, Apply(order, s, a), b) && (careful ==> Allowed(order, Apply(order, s, a), b))
    ensures Leads(order, careful, s, [a, b], Apply(order, Apply(order, s, a), b))
  {
    One(order, careful, Apply(order, s, a), b);
    assert [a, b][1..] == [b];
  }

  /** Scanning a column without references marks nothing. */
  lemma ScanNothing(order: seq<Column>, s: State)
    requires Enabled(order, s, ScanColumn)
    requires forall key :: key in s.rows && key.column == order[s.sweep.done] ==> RefIds(s.rows[key].stored) == {}
    ensures Leads(order, true, s, [ScanColumn], s.(sweep := s.sweep.(done := s.sweep.done + 1)))
  {
    assert Marks(s, order[s.sweep.done]) == {};
    assert s.sweep.marked + {} == s.sweep.marked;
    One(order, true, s, ScanColumn);
  }

  lemma {:induction false} ScanMany(order: seq<Column>, s: State, steps: seq<Step>)
    requires s.sweep.Scanning? && s.sweep.done + |steps| <= |order|
    requires forall i :: 0 <= i < |steps| ==> steps[i] == ScanColumn
    requires forall i, key :: s.sweep.done <= i < s.sweep.done + |steps| && key in s.rows && key.column == order[i] ==>
        RefIds(s.rows[key].stored) == {}
    ensures Leads(order, true, s, steps, s.(sweep := s.sweep.(done := s.sweep.done + |steps|)))
    decreases |steps|
  {
    if steps != [] {
      ScanNothing(order, s);
      var next := s.(sweep := s.sweep.(done := s.sweep.done + 1));
      ScanMany(order, next, steps[1..]);
      Join(order, true, s, [ScanColumn], next, steps[1..], s.(sweep := s.sweep.(done := s.sweep.done + |steps|)));
      assert steps == [ScanColumn] + steps[1..];
    }
  }

  /** With the only blob unmarked and unpinned, the sweep deletes it. */
  lemma Sweep(order: seq<Column>, s: State)
    requires s.sweep.Scanning? && s.sweep.done == |order| && s.sweep.marked == {} && s.sweep.maxId == 1
    requires s.pinned == {} && s.holders == map[] && s.blobs == ONE_BLOB
    ensures Leads(order, true, s, [ListCandidates([1]), DeleteSome],
                  s.(blobs := map[], cache := EMPTY_CACHE, sweep := Deleting({}, 1, [], true)))
  {
    assert Batch([1]) == [1] && [1][1..] == [];
    assert ONE_BLOB - ((set id | id in [1]) - {}) == map[];
    Two(order, true, s, ListCandidates([1]), DeleteSome);
  }

  /** Scan what is left, list, delete. */
  lemma ScanAndSweep(order: seq<Column>, s: State, scans: seq<Step>)
    requires s.sweep.Scanning? && s.sweep.done <= |order| && s.sweep.marked == {} && s.sweep.maxId == 1
    requires s.pinned == {} && s.holders == map[] && s.blobs == ONE_BLOB
    requires |scans| == |order| - s.sweep.done && forall i :: 0 <= i < |scans| ==> scans[i] == ScanColumn
    requires forall i, key :: s.sweep.done <= i < |order| && key in s.rows && key.column == order[i] ==>
        RefIds(s.rows[key].stored) == {}
    ensures Leads(order, true, s, scans + [ListCandidates([1]), DeleteSome],
                  s.(blobs := map[], cache := EMPTY_CACHE, sweep := Deleting({}, 1, [], true)))
  {
    var scanned := s.(sweep := s.sweep.(done := |order|));
    ScanMany(order, s, scans);
    Sweep(order, scanned);
    Join(order, true, s, scans, scanned, [ListCandidates([1]), DeleteSome],
         s.(blobs := map[], cache := EMPTY_CACHE, sweep := Deleting({}, 1, [], true)));
  }

  // ---------------------------------------------------------------- a store without the lock

  const CALLER: map<nat, Caller> := map[0 := Inserted(1, BODY)]
  const INSERTED := State(ONE_BLOB, EMPTY_CACHE, {}, Idle, map[], map[], CALLER)
  const COLLECTED := State(map[], EMPTY_CACHE, {}, Deleting({}, 1, [], true), map[], map[], CALLER)

  const LOOSE_SWEEP: seq<Step> := [StartSweep(1)] + (FOUR_SCANS + [ListCandidates([1]), DeleteSome])

  lemma LooseInserted()
    ensures Leads(SCAN_ORDER, true, EMPTY, [LooseInsert(0, BODY, 1)], INSERTED)
  {
    One(SCAN_ORDER, true, EMPTY, LooseInsert(0, BODY, 1));
    assert Apply(SCAN_ORDER, EMPTY, LooseInsert(0, BODY, 1)) == INSERTED;
  }

  lemma LooseSwept()
    ensures Leads(SCAN_ORDER, true, INSERTED, LOOSE_SWEEP, COLLECTED)
  {
    var started := INSERTED.(sweep := Scanning(0, {}, 1));
    One(SCAN_ORDER, true, INSERTED, StartSweep(1));
    ScanAndSweep(SCAN_ORDER, started, FOUR_SCANS);
    Join(SCAN_ORDER, true, INSERTED, [StartSweep(1)], started, FOUR_SCANS + [ListCandidates([1]), DeleteSome],
         COLLECTED);
  }

  lemma LooseCachedTooLate()
    ensures Enabled(SCAN_ORDER, COLLECTED, LooseCache(0)) && !LooseCacheCovered(COLLECTED, 0)
    ensures CanLose(Apply(SCAN_ORDER, COLLECTED, LooseCache(0)))
  {
    DeadCacheIsLost(Apply(SCAN_ORDER, COLLECTED, LooseCache(0)), BODY, 1);
  }

  /** RecordUniqueEventAt compacts without the lock before it records: a batch deletes the blob between the insert and
      the cache entry. The run up to there is careful; the cache entry is the step that is not, and the next writer to
      store the body, under the lock, takes the dead id. */
  lemma StoreWithoutTheLockLosesABlob()
    ensures Leads(SCAN_ORDER, true, EMPTY, [LooseInsert(0, BODY, 1)] + LOOSE_SWEEP, COLLECTED)
    ensures Enabled(SCAN_ORDER, COLLECTED, LooseCache(0)) && !LooseCacheCovered(COLLECTED, 0)
    ensures CanLose(Apply(SCAN_ORDER, COLLECTED, LooseCache(0)))
  {
    LooseInserted();
    LooseSwept();
    Join(SCAN_ORDER, true, EMPTY, [LooseInsert(0, BODY, 1)], INSERTED, LOOSE_SWEEP, COLLECTED);
    LooseCachedTooLate();
  }

  const FOUR_SCANS: seq<Step> := [ScanColumn, ScanColumn, ScanColumn, ScanColumn]
  const THREE_SCANS: seq<Step> := [ScanColumn, ScanColumn, ScanColumn]

  // ---------------------------------------------------------------- an uncovered journal copy

  const HOLDING := State(ONE_BLOB, EMPTY_CACHE, {}, Idle, map[], map[0 := Holder(map[], ONE_BLOB, map[])], map[])
  const KEPT := HOLDING.(holders := map[0 := Holder(map[], map[], ONE_BLOB)])
  const EVENT_ROW := Row(COMPACT, Strip(REPORTED), 1, 1)
  const RECORDED := KEPT.(rows := map[RowKey(Journal, 1) := EVENT_ROW, RowKey(Events, 1) := EVENT_ROW])
  const STRIPPED_ROW := Row(map[], map[], 1, 1)
  const STRIPPED := RECORDED.(rows := map[RowKey(Journal, 1) := STRIPPED_ROW, RowKey(Events, 1) := EVENT_ROW],
      holders := map[])
  const PAST_JOURNAL := STRIPPED.(sweep := Scanning(3, {}, 1))
  const TOUCHING := PAST_JOURNAL.(holders := map[0 := Holder(map[], map[], map[])])
  const TOUCH: Step := TouchEvent(0, 1, 0, 2)

  const TOUCH_STEPS: seq<Step> :=
    [Acquire(0), StoreInsert(0, BODY, 1)] + [Pin(0, 1), RecordEvent(0, 1, 1, REPORTED, COMPACT, 1)] +
    [Release(0), Acquire(0)] + ([STRIP] + [Release(0)]) + ([StartSweep(1)] + THREE_SCANS + [Acquire(0)])

  /** A holder stores one blob and pins it; no sweep is running. */
  lemma StoreOne(order: seq<Column>)
    ensures Leads(order, true, EMPTY, [Acquire(0), StoreInsert(0, BODY, 1)], HOLDING)
    ensures Enabled(order, HOLDING, Pin(0, 1)) && Apply(order, HOLDING, Pin(0, 1)) == KEPT
  {
    Two(order, true, EMPTY, Acquire(0), StoreInsert(0, BODY, 1));
    assert ONE_BLOB - {1} == map[];
  }

  /** An event is recorded with its journal entry. */
  lemma TouchRecorded()
    ensures Leads(SCAN_ORDER, true, HOLDING, [Pin(0, 1), RecordEvent(0, 1, 1, REPORTED, COMPACT, 1)], RECORDED)
  {
    CompactRow();
    StoreOne(SCAN_ORDER);
    Two(SCAN_ORDER, true, HOLDING, Pin(0, 1), RecordEvent(0, 1, 1, REPORTED, COMPACT, 1));
  }

  lemma StripsCompact(known: Blobs)
    ensures IsCompaction(COMPACT, map[], known) && Strip(COMPACT) == map[] && RefIds(map[]) == {}
  {
  }

  const REOPENED := RECORDED.(holders := map[0 := Holder(map[], map[], map[])])
  const STRIPPING := REOPENED.(rows := STRIPPED.rows)
  const STRIP: Step := WriteRow(0, RowKey(Journal, 1), COMPACT, map[])

  /** The writer leaves, and the background pass takes the lock. */
  lemma TouchReopened()
    ensures Leads(SCAN_ORDER, true, RECORDED, [Release(0), Acquire(0)], REOPENED)
  {
    assert RECORDED.holders - {0} == map[];
    Two(SCAN_ORDER, true, RECORDED, Release(0), Acquire(0));
  }

  /** It compacts the compact journal row again, which strips its references. */
  lemma TouchStripped()
    ensures Leads(SCAN_ORDER, true, REOPENED, [STRIP] + [Release(0)], STRIPPED)
  {
    StripsCompact(REOPENED.holders[0].kept);
    One(SCAN_ORDER, true, REOPENED, STRIP);
    assert REOPENED.rows[RowKey(Journal, 1) := STRIPPED_ROW] == STRIPPED.rows;
    One(SCAN_ORDER, true, STRIPPING, Release(0));
    assert STRIPPING.holders - {0} == map[];
    Join(SCAN_ORDER, true, REOPENED, [STRIP], STRIPPING, [Release(0)], STRIPPED);
  }

  /** A sweep starts and gets past the journal; a report takes the lock. */
  lemma TouchScanned()
    ensures Leads(SCAN_ORDER, true, STRIPPED, [StartSweep(1)] + THREE_SCANS, PAST_JOURNAL)
  {
    One(SCAN_ORDER, true, STRIPPED, StartSweep(1));
    TouchThreeScans(STRIPPED.(sweep := Scanning(0, {}, 1)));
    Join(SCAN_ORDER, true, STRIPPED, [StartSweep(1)], STRIPPED.(sweep := Scanning(0, {}, 1)), THREE_SCANS,
         PAST_JOURNAL);
  }

  lemma TouchThreeScans(started: State)
    requires started == STRIPPED.(sweep := Scanning(0, {}, 1))
    ensures Leads(SCAN_ORDER, true, started, THREE_SCANS, PAST_JOURNAL)
  {
    StripsCompact(map[]);
    forall i, key | 0 <= i < 3 && key in started.rows && key.column == SCAN_ORDER[i]
      ensures RefIds(started.rows[key].stored) == {}
    {
      assert started.rows[key] == STRIPPED_ROW;
    }
    ScanMany(SCAN_ORDER, started, THREE_SCANS);
  }

  lemma TouchHeld()
    ensures Leads(SCAN_ORDER, true, STRIPPED, [StartSweep(1)] + THREE_SCANS + [Acquire(0)], TOUCHING)
  {
    TouchScanned();
    One(SCAN_ORDER, true, PAST_JOURNAL, Acquire(0));
    Join(SCAN_ORDER, true, STRIPPED, [StartSweep(1)] + THREE_SCANS, PAST_JOURNAL, [Acquire(0)], TOUCHING);
  }

  lemma TouchRun()
    ensures Leads(SCAN_ORDER, true, EMPTY, TOUCH_STEPS, TOUCHING)
  {
    StoreOne(SCAN_ORDER);
    TouchRecorded();
    TouchReopened();
    TouchStripped();
    TouchHeld();
    var first := [Acquire(0), StoreInsert(0, BODY, 1)] + [Pin(0, 1), RecordEvent(0, 1, 1, REPORTED, COMPACT, 1)] +
                 [Release(0), Acquire(0)] + ([STRIP] + [Release(0)]);
    JoinFour(SCAN_ORDER, true, EMPTY, [Acquire(0), StoreInsert(0, BODY, 1)], HOLDING,
             [Pin(0, 1), RecordEvent(0, 1, 1, REPORTED, COMPACT, 1)], RECORDED, [Release(0), Acquire(0)], REOPENED,
             [STRIP] + [Release(0)], STRIPPED);
    Join(SCAN_ORDER, true, EMPTY, first, STRIPPED, [StartSweep(1)] + THREE_SCANS + [Acquire(0)], TOUCHING);
  }

  lemma TouchUncovered()
    ensures Enabled(SCAN_ORDER, TOUCHING, TOUCH) && !TouchCovered(SCAN_ORDER, TOUCHING, 1)
  {
    CompactRow();
    assert !Journaled(TOUCHING, EVENT_ROW);
    assert Scanned(SCAN_ORDER, TOUCHING, Journal) by { assert SCAN_ORDER[..3][2] == Journal; }
    assert !Safe(TOUCHING, 1) && 1 in RefIds(EVENT_ROW.stored);
  }

  /** A report older than the event then only counts an occurrence, which re-journals the event behind the scan,
      although every step up to it was careful; once an in-window report overwrites the event's details, its blob is
      collected under the new journal entry. */
  lemma UncoveredTouchLosesABlob()
    ensures Leads(SCAN_ORDER, true, EMPTY, TOUCH_STEPS, TOUCHING)
    ensures Enabled(SCAN_ORDER, TOUCHING, TOUCH) && !TouchCovered(SCAN_ORDER, TOUCHING, 1)
    ensures CanLose(Apply(SCAN_ORDER, TOUCHING, TOUCH))
  {
    TouchRun();
    TouchUncovered();
    TouchingInv();
    TouchLosesExactlyWhenUncovered(TOUCHING, TOUCH);
  }

  lemma TouchingInv()
    requires Leads(SCAN_ORDER, true, EMPTY, TOUCH_STEPS, TOUCHING)
    ensures Inv(SCAN_ORDER, TOUCHING)
  {
    ScanOrderIsGood();
    EmptyInv(SCAN_ORDER);
    RunKeepsInv(SCAN_ORDER, EMPTY, TOUCH_STEPS, TOUCHING);
  }

  lemma JoinFour(order: seq<Column>, careful: bool, s: State, a: seq<Step>, t: State, b: seq<Step>, u: State,
                 c: seq<Step>, v: State, d: seq<Step>, w: State)
    requires Leads(order, careful, s, a, t) && Leads(order, careful, t, b, u)
    requires Leads(order, careful, u, c, v) && Leads(order, careful, v, d, w)
    ensures Leads(order, careful, s, a + b + c + d, w)
  {
    Join(order, careful, s, a, t, b, u);
    Join(order, careful, s, a + b, u, c, v);
    Join(order, careful, s, a + b + c, v, d, w);
  }

  // ---------------------------------------------------------------- another scan order

  const LATE_WORKERS: seq<Column> := [Verifications, Workers, Journal, Events]

  const WORKER_ROW := Row(COMPACT, Strip(REPORTED), 0, 0)
  const RESET := Row(map[], map[], 0, 0)
  const RUNNING := KEPT.(rows := map[RowKey(Workers, 1) := WORKER_ROW])
  const STARTED := RUNNING.(holders := map[], sweep := Scanning(0, {}, 1))
  const JOURNALING := STARTED.(sweep := Scanning(1, {}, 1),
      rows := map[RowKey(Workers, 1) := WORKER_ROW, RowKey(Verifications, 1) := WORKER_ROW])
  const FORGOTTEN := JOURNALING.(rows := map[RowKey(Workers, 1) := RESET, RowKey(Verifications, 1) := WORKER_ROW])
  const ORDER_END := FORGOTTEN.(blobs := map[], sweep := Deleting({}, 1, [], true))

  const ORDER_STEPS: seq<Step> :=
    [Acquire(0), StoreInsert(0, BODY, 1)] + [Pin(0, 1), WriteRow(0, RowKey(Workers, 1), REPORTED, COMPACT)] +
    [Release(0), StartSweep(1)] + ([ScanColumn] + [JournalVerification(1, 1)]) +
    ([WritePlain(RowKey(Workers, 1), map[])] + (THREE_SCANS + [ListCandidates([1]), DeleteSome]))

  lemma OrderFirst()
    ensures Leads(LATE_WORKERS, true, HOLDING, [Pin(0, 1), WriteRow(0, RowKey(Workers, 1), REPORTED, COMPACT)], RUNNING)
    ensures Leads(LATE_WORKERS, true, RUNNING, [Release(0), StartSweep(1)], STARTED)
  {
    CompactRow();
    StoreOne(LATE_WORKERS);
    Two(LATE_WORKERS, true, HOLDING, Pin(0, 1), WriteRow(0, RowKey(Workers, 1), REPORTED, COMPACT));
    assert RUNNING.holders - {0} == map[];
    Two(LATE_WORKERS, true, RUNNING, Release(0), StartSweep(1));
  }

  lemma OrderCopy()
    ensures Leads(LATE_WORKERS, true, STARTED, [ScanColumn] + [JournalVerification(1, 1)], JOURNALING)
  {
    ScanNothing(LATE_WORKERS, STARTED);
    var scanned := STARTED.(sweep := Scanning(1, {}, 1));
    One(LATE_WORKERS, true, scanned, JournalVerification(1, 1));
    Join(LATE_WORKERS, true, STARTED, [ScanColumn], scanned, [JournalVerification(1, 1)], JOURNALING);
  }

  lemma OrderLast()
    ensures Leads(LATE_WORKERS, true, JOURNALING,
                  [WritePlain(RowKey(Workers, 1), map[])] + (THREE_SCANS + [ListCandidates([1]), DeleteSome]),
                      ORDER_END)
  {
    One(LATE_WORKERS, true, JOURNALING, WritePlain(RowKey(Workers, 1), map[]));
    assert JOURNALING.rows[RowKey(Workers, 1) := RESET] == FORGOTTEN.rows;
    assert Apply(LATE_WORKERS, JOURNALING, WritePlain(RowKey(Workers, 1), map[])) == FORGOTTEN;
    OrderSweep();
    Join(LATE_WORKERS, true, JOURNALING, [WritePlain(RowKey(Workers, 1), map[])], FORGOTTEN,
         THREE_SCANS + [ListCandidates([1]), DeleteSome], ORDER_END);
  }

  lemma OrderSweep()
    ensures Leads(LATE_WORKERS, true, FORGOTTEN, THREE_SCANS + [ListCandidates([1]), DeleteSome], ORDER_END)
  {
    assert RefIds(RESET.stored) == {};
    forall i, key | 1 <= i < 4 && key in FORGOTTEN.rows && key.column == LATE_WORKERS[i]
      ensures RefIds(FORGOTTEN.rows[key].stored) == {}
    {
    }
    ScanAndSweep(LATE_WORKERS, FORGOTTEN, THREE_SCANS);
  }

  /** Scanning workers after the column its trigger copies into loses a blob: the copy lands behind the
      scan and the worker row is reset before the scan reaches it. */
  lemma ScanningWorkersLateLosesABlob()
    ensures Leads(LATE_WORKERS, true, EMPTY, ORDER_STEPS, ORDER_END)
    ensures !RowsIntact(ORDER_END)
    ensures !GoodOrder(LATE_WORKERS)
  {
    StoreOne(LATE_WORKERS);
    OrderFirst();
    OrderCopy();
    OrderLast();
    var last := [WritePlain(RowKey(Workers, 1), map[])] + (THREE_SCANS + [ListCandidates([1]), DeleteSome]);
    JoinFour(LATE_WORKERS, true, EMPTY, [Acquire(0), StoreInsert(0, BODY, 1)], HOLDING,
             [Pin(0, 1), WriteRow(0, RowKey(Workers, 1), REPORTED, COMPACT)], RUNNING,
             [Release(0), StartSweep(1)], STARTED, [ScanColumn] + [JournalVerification(1, 1)], JOURNALING);
    Join(LATE_WORKERS, true, EMPTY,
         [Acquire(0), StoreInsert(0, BODY, 1)] + [Pin(0, 1), WriteRow(0, RowKey(Workers, 1), REPORTED, COMPACT)] +
         [Release(0), StartSweep(1)] + ([ScanColumn] + [JournalVerification(1, 1)]), JOURNALING, last, ORDER_END);
    CompactRow();
    assert RowKey(Verifications, 1) in ORDER_END.rows;
    assert LATE_WORKERS[0] == Verifications && LATE_WORKERS[..0] == [];
  }
}

/** Reports recorded into hourly buckets, one kept state per worker; times are nanoseconds. */
module CostMeter {
  import opened Basics
  import opened CostCounters
  import Sums

  const HOUR: nat := 3_600_000_000_000

  datatype Runtime = Runtime(counters: Report, diskUsed: nat, dbSize: int, dbTotalSize: int)

  datatype Seen = Seen(at: nat, counters: State)
  datatype Slot = Slot(worker: string, start: nat)
  datatype Bucket = Bucket(totals: Totals, dbSize: nat, dbSizeMax: nat)

  datatype Meters = Meters(state: map<string, Seen>, hourly: map<Slot, Bucket>)

  const NO_METERS := Meters(map[], map[])
  const NO_BUCKET := Bucket(NO_TOTALS, 0, 0)

  function Max(a: nat, b: nat): nat
  {
    if a >= b then a else b
  }

  function Truncate(at: nat): nat
  {
    at - at % HOUR
  }

  /** The time lies in the hour that begins at `start`: whole hours of 3600 seconds, counted from zero. */
  predicate InHour(at: nat, start: nat)
  {
    start % 3_600_000_000_000 == 0 && start <= at < start + 3_600_000_000_000
  }

  lemma TruncatesToItsHour(at: nat, start: nat)
    ensures Truncate(at) == start <==> InHour(at, start)
  {
    assert at == 3_600_000_000_000 * (at / 3_600_000_000_000) + at % 3_600_000_000_000;
    assert start == 3_600_000_000_000 * (start / 3_600_000_000_000) + start % 3_600_000_000_000;
  }

  /** The reported size, or the total where none is reported; nothing below zero counts. */
  lemma DBSizeFallsBack(r: Runtime)
    ensures r.dbSize > 0 ==> DBSize(r) == r.dbSize
    ensures r.dbSize <= 0 < r.dbTotalSize ==> DBSize(r) == r.dbTotalSize
    ensures r.dbSize <= 0 && r.dbTotalSize <= 0 ==> DBSize(r) == 0
  {
  }

  function DBSize(r: Runtime): nat
  {
    if r.dbSize > 0 then r.dbSize else if r.dbTotalSize > 0 then r.dbTotalSize else 0
  }

  predicate IsZero(t: Totals)
  {
    t.litestream == map[] && t.replica == map[] && t.uploads == 0 && t.uploadBytes == 0 && t.peakDisk == 0
  }

  // ---------------------------------------------------------------- adding totals

  ghost function AddedCounts(labels: set<Label>, dst: Counts, src: Counts): Counts
  {
    map l | l in dst.Keys + labels && (l in dst || Get(src, l) != 0) ::
        Get(dst, l) + if l in labels then Get(src, l) else 0
  }

  lemma AddOne(labels: set<Label>, l: Label, dst: Counts, src: Counts)
    requires l !in labels
    ensures AddedCounts(labels + {l}, dst, src)
         == if Get(src, l) == 0 then AddedCounts(labels, dst, src)
            else AddedCounts(labels, dst, src)[l := Get(AddedCounts(labels, dst, src), l) + Get(src, l)]
  {
  }

  method AddCounterMap(dst: Counts, src: Counts) returns (sum: Counts)
    ensures sum == AddedCounts(src.Keys, dst, src)
  {
    sum := dst;
    var rest := src.Keys;
    while rest != {}
      invariant rest <= src.Keys
      invariant sum == AddedCounts(src.Keys - rest, dst, src)
      decreases rest
    {
      var l :| l in rest;
      AddOne(src.Keys - rest, l, dst, src);
      assert src.Keys - rest + {l} == src.Keys - (rest - {l});
      if src[l] != 0 { sum := sum[l := Get(sum, l) + src[l]]; }
      rest := rest - {l};
    }
    assert src.Keys - rest == src.Keys;
  }

  ghost function Plus(a: Totals, b: Totals): Totals
  {
    Totals(AddedCounts(b.litestream.Keys, a.litestream, b.litestream),
        AddedCounts(b.replica.Keys, a.replica, b.replica),
           a.uploads + b.uploads, a.uploadBytes + b.uploadBytes, Max(a.peakDisk, b.peakDisk))
  }

  /** Adding totals adds every series. */
  lemma PlusAdds(a: Totals, b: Totals, s: Series)
    ensures Billed(Plus(a, b), s) == Billed(a, s) + Billed(b, s)
  {
  }

  lemma PlusNothing(a: Totals, b: Totals)
    requires IsZero(b.(peakDisk := 0))
    ensures Plus(a, b) == a.(peakDisk := Max(a.peakDisk, b.peakDisk))
  {
    assert AddedCounts({}, a.litestream, map[]) == a.litestream;
    assert AddedCounts({}, a.replica, map[]) == a.replica;
  }

  method Add(a: Totals, b: Totals) returns (sum: Totals)
    ensures sum == Plus(a, b)
  {
    var litestream := AddCounterMap(a.litestream, b.litestream);
    var replica := AddCounterMap(a.replica, b.replica);
    sum := Totals(litestream, replica, a.uploads + b.uploads, a.uploadBytes + b.uploadBytes,
        Max(a.peakDisk, b.peakDisk));
  }

  // ---------------------------------------------------------------- recording one report

  ghost function Absorb(b: Bucket, delta: Totals, disk: nat, size: nat): Bucket
  {
    Bucket(Plus(b.totals, delta.(peakDisk := disk)), if size > 0 then size else b.dbSize, Max(b.dbSizeMax, size))
  }

  function BucketAt(hourly: map<Slot, Bucket>, slot: Slot): Bucket
  {
    if slot in hourly then hourly[slot] else NO_BUCKET
  }

  function Previous(m: Meters, worker: string): State
  {
    if worker in m.state then m.state[worker].counters else NO_STATE
  }

  predicate Stale(m: Meters, worker: string, at: nat)
  {
    worker in m.state && at < m.state[worker].at
  }

  /** The simple form: a report that is not stale advances the state and always writes its hour's bucket,
      unless it has nothing to add. */
  ghost function Recorded(m: Meters, worker: string, at: nat, r: Runtime): (Totals, Meters)
  {
    if Stale(m, worker, at) then (NO_TOTALS, m)
    else
      var (delta, next) := Step(Previous(m, worker), r.counters);
      var slot := Slot(worker, Truncate(at));
      (delta,
       Meters(m.state[worker := Seen(at, next)],
              if IsZero(delta.(peakDisk := r.diskUsed)) && DBSize(r) == 0 then m.hourly
              else m.hourly[slot := Absorb(BucketAt(m.hourly, slot), delta, r.diskUsed, DBSize(r))]))
  }

  ghost predicate SizesOrdered(hourly: map<Slot, Bucket>)
  {
    forall slot :: slot in hourly ==> hourly[slot].dbSize <= hourly[slot].dbSizeMax
  }

  lemma StepHasNoDisk(previous: State, r: Report)
    ensures Step(previous, r).0.peakDisk == 0
  {
  }

  /** Skipping the write of an unchanged bucket loses nothing, because the largest size is never below the
      last one. */
  lemma SkippedWriteLosesNothing(hourly: map<Slot, Bucket>, slot: Slot, delta: Totals, disk: nat, size: nat)
    requires SizesOrdered(hourly) && slot in hourly && IsZero(delta)
    requires Max(hourly[slot].totals.peakDisk, disk) == hourly[slot].totals.peakDisk
    requires size > 0 ==> size == hourly[slot].dbSize
    ensures hourly[slot := Absorb(hourly[slot], delta, disk, size)] == hourly
  {
    PlusNothing(hourly[slot].totals, delta.(peakDisk := disk));
  }

  class MeterDB {
    var m: Meters
    var sources: map<Slot, string>

    /** Add to one bucket, writing it only when something in it changed. */
    method AddToBucket(slot: Slot, source: string, delta: Totals, disk: nat, size: nat)
      requires SizesOrdered(m.hourly) && delta.peakDisk == 0
      modifies this
      ensures SizesOrdered(m.hourly) && m.state == old(m.state)
      ensures m.hourly == old(m.hourly)[slot := Absorb(BucketAt(old(m.hourly), slot), delta, disk, size)]
      ensures sources == old(sources) || sources == old(sources)[slot := source]
      ensures m.hourly != old(m.hourly) ==> sources == old(sources)[slot := source]
    {
      var stored := BucketAt(m.hourly, slot);
      var totals := Add(stored.totals, delta.(peakDisk := disk));
      var bucket := stored.(totals := totals);
      if size > 0 {
        bucket := bucket.(dbSize := size, dbSizeMax := Max(bucket.dbSizeMax, size));
      }
      if !IsZero(delta) || totals.peakDisk != stored.totals.peakDisk || bucket.dbSize != stored.dbSize
          || slot !in m.hourly {
        m := m.(hourly := m.hourly[slot := bucket]);
        sources := sources[slot := source];
      } else {
        SkippedWriteLosesNothing(m.hourly, slot, delta, disk, size);
      }
    }

    /** RecordCostMeter: the conditional write ends in the buckets of the unconditional one. */
    method RecordCostMeter(worker: string, source: string, at: nat, r: Runtime) returns (delta: Totals)
      requires SizesOrdered(m.hourly)
      modifies this
      ensures SizesOrdered(m.hourly)
      ensures (delta, m) == Recorded(old(m), worker, at, r)
      ensures Stale(old(m), worker, at) ==> sources == old(sources)
    {
      if Stale(m, worker, at) { return NO_TOTALS; }
      StepHasNoDisk(Previous(m, worker), r.counters);
      var next;
      delta, next := CostMeterDelta(if worker in m.state then Some(m.state[worker].counters) else None, r.counters);
      m := m.(state := m.state[worker := Seen(at, next)]);
      if !IsZero(delta.(peakDisk := r.diskUsed)) || DBSize(r) > 0 {
        AddToBucket(Slot(worker, Truncate(at)), source, delta, r.diskUsed, DBSize(r));
      }
    }
  }

  // ---------------------------------------------------------------- whole runs

  datatype Call = Call(worker: string, at: nat, r: Runtime)

  ghost function After(calls: seq<Call>): Meters
  {
    if calls == [] then NO_METERS
    else var c := calls[|calls| - 1]; Recorded(After(calls[..|calls| - 1]), c.worker, c.at, c.r).1
  }

  /** The time of a worker's last report that was not older than one before it. */
  function LastSeen(calls: seq<Call>, worker: string): Option<nat>
  {
    if calls == [] then None
    else
      var rest, c := LastSeen(calls[..|calls| - 1], worker), calls[|calls| - 1];
      if c.worker == worker && (rest.Some? ==> rest.value <= c.at) then Some(c.at) else rest
  }

  predicate Accepted(calls: seq<Call>, worker: string, n: nat)
    requires n < |calls|
  {
    calls[n].worker == worker && var seen := LastSeen(calls[..n], worker); seen.Some? ==> seen.value <= calls[n].at
  }

  /** The worker's reports that were in order. */
  function InOrder(calls: seq<Call>, worker: string): seq<Report>
  {
    if calls == [] then []
    else
      var n := |calls| - 1;
      if Accepted(calls, worker, n) then InOrder(calls[..n], worker) + [calls[n].r.counters]
          else InOrder(calls[..n], worker)
  }

  /** What the calls for one hour of a worker returned, summed. */
  ghost function Returned(calls: seq<Call>, slot: Slot, s: Series): nat
  {
    if calls == [] then 0
    else
      var n, c := |calls| - 1, calls[|calls| - 1];
      Returned(calls[..n], slot, s) +
      if c.worker == slot.worker && InHour(c.at, slot.start)
      then Billed(Recorded(After(calls[..n]), c.worker, c.at, c.r).0, s) else 0
  }

  /** The largest disk use reported in order for one hour, the largest database size, and the last one. */
  function PeakDisk(calls: seq<Call>, slot: Slot): nat
  {
    if calls == [] then 0
    else
      var n := |calls| - 1;
      var rest := PeakDisk(calls[..n], slot);
      if Accepted(calls, slot.worker, n) && InHour(calls[n].at, slot.start) then Max(rest, calls[n].r.diskUsed)
          else rest
  }

  function Sizes(calls: seq<Call>, slot: Slot): (nat, nat)
  {
    if calls == [] then (0, 0)
    else
      var n := |calls| - 1;
      var (last, most) := Sizes(calls[..n], slot);
      var size := DBSize(calls[n].r);
      if Accepted(calls, slot.worker, n) && InHour(calls[n].at, slot.start) && size > 0
          then (size, Max(most, size)) else (last, most)
  }

  /** The state kept for a worker is that of its in-order reports. */
  lemma {:induction false} StateOfRun(calls: seq<Call>, worker: string)
    ensures var m := After(calls);
            && (worker in m.state <==> LastSeen(calls, worker).Some?)
            && (worker in m.state ==> m.state[worker].at == LastSeen(calls, worker).value)
            && Previous(m, worker) == CostCounters.After(InOrder(calls, worker))
  {
    if calls != [] {
      var n := |calls| - 1;
      StateOfRun(calls[..n], worker);
      StreamNext(InOrder(calls[..n], worker), calls[n].r.counters, Uploads);
    }
  }

  ghost predicate Holds(b: Bucket, calls: seq<Call>, slot: Slot, s: Series)
  {
    && Billed(b.totals, s) == Returned(calls, slot, s)
    && b.totals.peakDisk == PeakDisk(calls, slot)
    && (b.dbSize, b.dbSizeMax) == Sizes(calls, slot)
  }

  /** In every run each bucket holds exactly what the calls of its hour returned, the largest disk use and the
      last and largest sizes reported in order in that hour; stale calls leave no trace. */
  lemma {:induction false} BucketHoldsItsHour(calls: seq<Call>, slot: Slot, s: Series)
    ensures Holds(BucketAt(After(calls).hourly, slot), calls, slot, s)
  {
    if calls != [] {
      var n := |calls| - 1;
      BucketHoldsItsHour(calls[..n], slot, s);
      StateOfRun(calls[..n], slot.worker);
      BucketStep(calls, After(calls[..n]), slot, s);
    }
  }

  /** The last call is for this bucket: of its worker, in its hour and not stale. */
  ghost predicate Lands(calls: seq<Call>, m: Meters, slot: Slot)
    requires calls != []
  {
    var c := calls[|calls| - 1];
    c.worker == slot.worker && InHour(c.at, slot.start) && !Stale(m, c.worker, c.at)
  }

  /** What a call adds to the figures of an hour. */
  lemma FiguresNext(calls: seq<Call>, m: Meters, slot: Slot, s: Series)
    requires calls != [] && m == After(calls[..|calls| - 1])
    requires var seen := LastSeen(calls[..|calls| - 1], slot.worker);
             (slot.worker in m.state <==> seen.Some?) && (seen.Some? ==> m.state[slot.worker].at == seen.value)
    ensures var rest, c := calls[..|calls| - 1], calls[|calls| - 1];
            var size := DBSize(c.r);
            && Returned(calls, slot, s)
               == Returned(rest, slot, s)
                  + (if Lands(calls, m, slot) then Billed(Recorded(m, c.worker, c.at, c.r).0, s) else 0)
            && PeakDisk(calls, slot)
               == (if Lands(calls, m, slot) then Max(PeakDisk(rest, slot), c.r.diskUsed) else PeakDisk(rest, slot))
            && Sizes(calls, slot)
               == (if Lands(calls, m, slot) && size > 0 then (size, Max(Sizes(rest, slot).1, size))
                   else Sizes(rest, slot))
  {
  }

  lemma BucketStep(calls: seq<Call>, m: Meters, slot: Slot, s: Series)
    requires calls != [] && m == After(calls[..|calls| - 1])
    requires Holds(BucketAt(m.hourly, slot), calls[..|calls| - 1], slot, s)
    requires var seen := LastSeen(calls[..|calls| - 1], slot.worker);
             (slot.worker in m.state <==> seen.Some?) && (seen.Some? ==> m.state[slot.worker].at == seen.value)
    ensures Holds(BucketAt(After(calls).hourly, slot), calls, slot, s)
  {
    var c := calls[|calls| - 1];
    FiguresNext(calls, m, slot, s);
    RecordedBucket(m, c.worker, c.at, c.r, slot, s);
  }

  /** What one report does to one bucket, whether or not the bucket is written. */
  lemma RecordedBucket(m: Meters, worker: string, at: nat, r: Runtime, slot: Slot, s: Series)
    ensures var (delta, next) := Recorded(m, worker, at, r);
            var before, after := BucketAt(m.hourly, slot), BucketAt(next.hourly, slot);
            if !Stale(m, worker, at) && slot.worker == worker && InHour(at, slot.start) then
              && Billed(after.totals, s) == Billed(before.totals, s) + Billed(delta, s)
              && after.totals.peakDisk == Max(before.totals.peakDisk, r.diskUsed)
              && after.dbSize == (if DBSize(r) > 0 then DBSize(r) else before.dbSize)
              && after.dbSizeMax == Max(before.dbSizeMax, DBSize(r))
            else after == before
  {
    var (delta, next) := Recorded(m, worker, at, r);
    TruncatesToItsHour(at, slot.start);
    if !Stale(m, worker, at) && slot == Slot(worker, Truncate(at)) {
      PlusAdds(BucketAt(m.hourly, slot).totals, delta.(peakDisk := r.diskUsed), s);
    }
  }

  // ---------------------------------------------------------------- conservation

  ghost function SeriesOf(hourly: map<Slot, Bucket>, worker: string, s: Series): map<Slot, nat>
  {
    map slot | slot in hourly && slot.worker == worker :: Billed(hourly[slot].totals, s)
  }

  /** A worker's hourly buckets, summed. */
  ghost function HourlySum(m: Meters, worker: string, s: Series): nat
  {
    Sums.Total(SeriesOf(m.hourly, worker, s))
  }

  lemma SumOfWritten(hourly: map<Slot, Bucket>, slot: Slot, b: Bucket, worker: string, s: Series)
    ensures Sums.Total(SeriesOf(hourly[slot := b], worker, s))
         == Sums.Total(SeriesOf(hourly, worker, s)) + if slot.worker == worker
             then Billed(b.totals, s) - Billed(BucketAt(hourly, slot).totals, s) else 0
  {
    var before, after := SeriesOf(hourly, worker, s), SeriesOf(hourly[slot := b], worker, s);
    if slot.worker == worker {
      assert after == before[slot := Billed(b.totals, s)];
      Sums.TotalUpdate(before, slot, Billed(b.totals, s));
      if slot in before { Sums.TotalWithout(before, slot); } else { Sums.TotalAbsent(before, slot); }
    } else {
      assert after == before;
    }
  }

  lemma SumGrows(m: Meters, worker: string, at: nat, r: Runtime, other: string, s: Series)
    ensures var (delta, next) := Recorded(m, worker, at, r);
            HourlySum(next, other, s) == HourlySum(m, other, s) + if other == worker then Billed(delta, s) else 0
  {
    var (delta, next) := Recorded(m, worker, at, r);
    var slot := Slot(worker, Truncate(at));
    TruncatesToItsHour(at, slot.start);
    RecordedBucket(m, worker, at, r, slot, s);
    if next.hourly != m.hourly {
      SumOfWritten(m.hourly, slot, next.hourly[slot], other, s);
    }
  }

  /** In every run the sum of a worker's hourly buckets is what its in-order reports were billed. */
  lemma {:induction false} BucketsConserveDeltas(calls: seq<Call>, worker: string, s: Series)
    ensures HourlySum(After(calls), worker, s) == BilledOver(InOrder(calls, worker), s)
  {
    if calls == [] {
      assert SeriesOf(map[], worker, s) == map[];
    } else {
      var n := |calls| - 1;
      var c, m := calls[n], After(calls[..n]);
      BucketsConserveDeltas(calls[..n], worker, s);
      StateOfRun(calls[..n], worker);
      SumGrows(m, c.worker, c.at, c.r, worker, s);
      StreamNext(InOrder(calls[..n], worker), c.r.counters, s);
    }
  }

  /** So in every run a worker's hourly buckets sum, for each series, to the peaks of the runs of its in-order
      reports, and, where the epochs are named, to the peaks of their same-epoch segments. */
  lemma HourlySumIsSumOfPeaks(calls: seq<Call>, worker: string, s: Series)
    ensures HourlySum(After(calls), worker, s) == SumOfPeaks(Pieces(InOrder(calls, worker), s))
    ensures (s.LitestreamSeries? ==> EpochsNamed(InOrder(calls, worker))) ==>
            HourlySum(After(calls), worker, s) == SumOfPeaks(Segments(Samples(InOrder(calls, worker), s)))
  {
    BucketsConserveDeltas(calls, worker, s);
    BilledIsSumOfPeaks(InOrder(calls, worker), s);
    if s.LitestreamSeries? ==> EpochsNamed(InOrder(calls, worker)) { NamedBillIsSumOfPeaks(InOrder(calls, worker), s); }
  }
}

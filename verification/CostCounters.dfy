/** Cumulative counters with restart epochs, turned into deltas.

    The two Litestream counter maps of a report travel as one map keyed by meter and label, and so do the
    six replica maps; counters are unbounded. */
module CostCounters {
  import opened Basics

  datatype Meter =
    | ObjectOperations | ObjectBytes
    | Requests | RequestBytesSent | ResponseBytesReceived | LevelPuts | LevelPutBytes | RestoreRequests

  datatype Label = Label(meter: Meter, name: string)

  type Counts = map<Label, nat>

  function Get(counts: Counts, l: Label): nat
  {
    if l in counts then counts[l] else 0
  }

  /** What a worker reports; `litestream` is absent when neither Litestream map was sent. */
  datatype Report = Report(workerEpoch: string, litestreamEpoch: string, litestream: Option<Counts>, replica: Counts,
      uploads: nat, uploadBytes: nat)

  /** What is kept between reports. */
  datatype State = State(workerEpoch: string, litestreamEpoch: string, litestream: Counts, replica: Counts,
      uploads: nat, uploadBytes: nat)

  datatype Totals = Totals(litestream: Counts, replica: Counts, uploads: nat, uploadBytes: nat, peakDisk: nat)

  const NO_STATE := State("", "", map[], map[], 0, 0)
  const NO_TOTALS := Totals(map[], map[], 0, 0, 0)

  // ---------------------------------------------------------------- advancing counters

  datatype Lifetime = Unknown | Continued | Restarted

  function Classify(previous: string, current: string): Lifetime
  {
    if previous == "" || current == "" then Unknown
    else if previous == current then Continued
    else Restarted
  }

  /** The delta and the value to compare the next report with. */
  function AdvanceCounter(previous: nat, current: nat, lifetime: Lifetime): (r: (nat, nat))
    ensures lifetime.Continued? ==> r.1 == (if current >= previous then current else previous) && r.0 == r.1 - previous
    ensures lifetime.Restarted? || previous == 0 ==> r == (current, current)
  {
    if lifetime.Restarted? then (current, current)
    else if current >= previous then (current - previous, current)
    else if lifetime.Unknown? then (current, current)
    else (0, previous)
  }

  function Advanced(previous: Counts, current: Counts, lifetime: Lifetime, l: Label): (nat, nat)
  {
    AdvanceCounter(Get(Carried(previous, lifetime), l), Get(current, l), lifetime)
  }

  function Carried(previous: Counts, lifetime: Lifetime): Counts
  {
    if lifetime.Restarted? then map[] else previous
  }

  ghost function DeltasOf(labels: set<Label>, previous: Counts, current: Counts, lifetime: Lifetime): Counts
  {
    map l | l in labels && Advanced(previous, current, lifetime, l).0 > 0 :: Advanced(previous, current, lifetime, l).0
  }

  ghost function NextsOf(labels: set<Label>, previous: Counts, current: Counts, lifetime: Lifetime): Counts
  {
    map l | l in labels + Carried(previous, lifetime).Keys ::
        if l in labels then Advanced(previous, current, lifetime, l).1 else previous[l]
  }

  /** The positive deltas of the labels reported. */
  ghost function Deltas(previous: Counts, current: Counts, lifetime: Lifetime): Counts
  {
    DeltasOf(current.Keys, previous, current, lifetime)
  }

  /** The values kept: those reported advance, the others stay unless the counters restarted. */
  ghost function Nexts(previous: Counts, current: Counts, lifetime: Lifetime): Counts
  {
    NextsOf(current.Keys, previous, current, lifetime)
  }

  lemma DeltaOne(labels: set<Label>, l: Label, previous: Counts, current: Counts, lifetime: Lifetime, delta: nat)
    requires l !in labels && delta == Advanced(previous, current, lifetime, l).0
    ensures DeltasOf(labels + {l}, previous, current, lifetime)
         == if delta > 0 then DeltasOf(labels, previous, current, lifetime)[l := delta]
             else DeltasOf(labels, previous, current, lifetime)
  {
  }

  lemma NextOne(labels: set<Label>, l: Label, previous: Counts, current: Counts, lifetime: Lifetime, advanced: nat)
    requires advanced == Advanced(previous, current, lifetime, l).1
    ensures NextsOf(labels + {l}, previous, current, lifetime)
        == NextsOf(labels, previous, current, lifetime)[l := advanced]
  {
  }

  method AdvanceCounterMap(previous: Counts, current: Counts, lifetime: Lifetime) returns (deltas: Counts, next: Counts)
    ensures deltas == Deltas(previous, current, lifetime)
    ensures next == Nexts(previous, current, lifetime)
  {
    next := Carried(previous, lifetime);
    deltas := map[];
    var rest := current.Keys;
    while rest != {}
      invariant rest <= current.Keys
      invariant deltas == DeltasOf(current.Keys - rest, previous, current, lifetime)
      invariant next == NextsOf(current.Keys - rest, previous, current, lifetime)
      decreases rest
    {
      var l :| l in rest;
      var (delta, advanced) := AdvanceCounter(Get(Carried(previous, lifetime), l), current[l], lifetime);
      DeltaOne(current.Keys - rest, l, previous, current, lifetime, delta);
      NextOne(current.Keys - rest, l, previous, current, lifetime, advanced);
      assert current.Keys - rest + {l} == current.Keys - (rest - {l});
      next := next[l := advanced];
      if delta != 0 { deltas := deltas[l := delta]; }
      rest := rest - {l};
    }
    assert current.Keys - rest == current.Keys;
  }

  /** One report against the kept state: what to bill, and what to keep. */
  ghost function Step(previous: State, current: Report): (Totals, State)
  {
    var life := Classify(previous.workerEpoch, current.workerEpoch);
    var kept := if life.Restarted? then previous.(litestreamEpoch := "", litestream := map[]) else previous;
    var (objects, afterObjects) := StepLitestream(kept, current);
    if current.workerEpoch == "" then (NO_TOTALS.(litestream := objects), afterObjects)
    else
      var (uploads, nextUploads) := AdvanceCounter(previous.uploads, current.uploads, life);
      var (bytes, nextBytes) := AdvanceCounter(previous.uploadBytes, current.uploadBytes, life);
      (Totals(objects, Deltas(previous.replica, current.replica, life), uploads, bytes, 0),
       State(current.workerEpoch, afterObjects.litestreamEpoch, afterObjects.litestream,
             Nexts(previous.replica, current.replica, life), nextUploads, nextBytes))
  }

  ghost function StepLitestream(kept: State, current: Report): (Counts, State)
  {
    if current.litestream.None? then (map[], kept)
    else
      var life := Classify(kept.litestreamEpoch, current.litestreamEpoch);
      (Deltas(kept.litestream, current.litestream.value, life),
       kept.(litestream := Nexts(kept.litestream, current.litestream.value, life),
             litestreamEpoch := if current.litestreamEpoch != "" then current.litestreamEpoch
                 else kept.litestreamEpoch))
  }

  method CostMeterDelta(previous: Option<State>, current: Report) returns (delta: Totals, next: State)
    ensures (delta, next) == Step(if previous.Some? then previous.value else NO_STATE, current)
  {
    var before := if previous.Some? then previous.value else NO_STATE;
    delta, next := NO_TOTALS, before;
    var workerLifetime := Classify(before.workerEpoch, current.workerEpoch);
    if workerLifetime.Restarted? {
      next := next.(litestreamEpoch := "", litestream := map[]);
    }
    if current.litestream.Some? {
      var lifetime := Classify(next.litestreamEpoch, current.litestreamEpoch);
      var objects, advanced := AdvanceCounterMap(next.litestream, current.litestream.value, lifetime);
      delta := delta.(litestream := objects);
      next := next.(litestream := advanced);
      if current.litestreamEpoch != "" { next := next.(litestreamEpoch := current.litestreamEpoch); }
    }
    if current.workerEpoch == "" { return; }
    next := next.(workerEpoch := current.workerEpoch);
    var replica, advanced := AdvanceCounterMap(before.replica, current.replica, workerLifetime);
    var (uploads, nextUploads) := AdvanceCounter(before.uploads, current.uploads, workerLifetime);
    var (bytes, nextBytes) := AdvanceCounter(before.uploadBytes, current.uploadBytes, workerLifetime);
    delta := delta.(replica := replica, uploads := uploads, uploadBytes := bytes);
    next := next.(replica := advanced, uploads := nextUploads, uploadBytes := nextBytes);
  }

  // ---------------------------------------------------------------- segments

  /** The lifetime a value belongs to: how often the worker had restarted, and the counter's own epoch. */
  datatype Epoch = Epoch(life: nat, name: string)
  datatype Sample = Sample(epoch: Epoch, value: nat)

  /** The maximal runs of consecutive samples with one epoch. */
  function Segments(samples: seq<Sample>): (r: seq<seq<Sample>>)
    ensures samples != [] ==> r != []
  {
    if samples == [] then []
    else
      var n := |samples| - 1;
      var rest := Segments(samples[..n]);
      if n > 0 && samples[n - 1].epoch == samples[n].epoch then Grown(rest, samples[n])
      else rest + [[samples[n]]]
  }

  function Join(segments: seq<seq<Sample>>): seq<Sample>
  {
    if segments == [] then [] else Join(segments[..|segments| - 1]) + segments[|segments| - 1]
  }

  predicate Uniform(segment: seq<Sample>)
  {
    segment != [] && forall i :: 0 <= i < |segment| ==> segment[i].epoch == segment[0].epoch
  }

  predicate Maximal(segments: seq<seq<Sample>>)
  {
    && (forall i :: 0 <= i < |segments| ==> Uniform(segments[i]))
    && forall i :: 0 < i < |segments| ==> segments[i - 1][0].epoch != segments[i][0].epoch
  }

  function Peak(segment: seq<Sample>): (p: nat)
    ensures forall i :: 0 <= i < |segment| ==> segment[i].value <= p
    ensures segment == [] ==> p == 0
    ensures segment != [] ==> exists i :: 0 <= i < |segment| && segment[i].value == p
  {
    if segment == [] then 0
    else
      var rest := Peak(segment[..|segment| - 1]);
      if rest <= segment[|segment| - 1].value then segment[|segment| - 1].value else rest
  }

  function SumOfPeaks(segments: seq<seq<Sample>>): nat
  {
    if segments == [] then 0 else SumOfPeaks(segments[..|segments| - 1]) + Peak(segments[|segments| - 1])
  }

  function Grown(segments: seq<seq<Sample>>, x: Sample): seq<seq<Sample>>
    requires segments != []
  {
    segments[..|segments| - 1] + [segments[|segments| - 1] + [x]]
  }

  lemma PeakNext(segment: seq<Sample>, x: Sample)
    ensures Peak(segment + [x]) == if Peak(segment) <= x.value then x.value else Peak(segment)
  {
    assert (segment + [x])[..|segment|] == segment;
  }

  lemma GrownSums(segments: seq<seq<Sample>>, x: Sample)
    requires segments != []
    ensures SumOfPeaks(Grown(segments, x))
        == SumOfPeaks(segments) - Peak(segments[|segments| - 1]) + Peak(segments[|segments| - 1] + [x])
  {
    assert Grown(segments, x)[..|segments| - 1] == segments[..|segments| - 1];
  }

  lemma GrownJoins(segments: seq<seq<Sample>>, x: Sample)
    requires segments != []
    ensures Join(Grown(segments, x)) == Join(segments) + [x]
  {
    var k := |segments| - 1;
    assert Grown(segments, x)[..k] == segments[..k];
    assert Join(segments[..k]) + (segments[k] + [x]) == (Join(segments[..k]) + segments[k]) + [x];
  }

  lemma AddedSums(segments: seq<seq<Sample>>, x: Sample)
    ensures SumOfPeaks(segments + [[x]]) == SumOfPeaks(segments) + x.value
    ensures Join(segments + [[x]]) == Join(segments) + [x]
  {
    assert (segments + [[x]])[..|segments|] == segments;
    assert Peak([x]) == x.value;
  }

  lemma GrownMaximal(segments: seq<seq<Sample>>, x: Sample)
    requires segments != [] && Maximal(segments) && segments[|segments| - 1][0].epoch == x.epoch
    ensures Maximal(Grown(segments, x))
  {
    var k := |segments| - 1;
    var grown := Grown(segments, x);
    assert Uniform(segments[k]);
    assert Uniform(grown[k]);
    forall i | 0 <= i < |grown| ensures Uniform(grown[i]) && grown[i][0] == segments[i][0] {
      assert Uniform(segments[i]);
    }
  }

  lemma AddedMaximal(segments: seq<seq<Sample>>, x: Sample)
    requires Maximal(segments) && (segments != [] ==> segments[|segments| - 1][0].epoch != x.epoch)
    ensures Maximal(segments + [[x]])
  {
    var added := segments + [[x]];
    assert Uniform([x]);
    forall i | 0 <= i < |added| ensures Uniform(added[i]) {
      if i < |segments| { assert Uniform(segments[i]); }
    }
  }

  /** Segments cuts the samples, in order, into maximal runs of one epoch. */
  lemma {:induction false} SegmentsPartition(samples: seq<Sample>)
    ensures Join(Segments(samples)) == samples && Maximal(Segments(samples))
    ensures samples != [] ==> var s := Segments(samples); s[|s| - 1][0].epoch == samples[|samples| - 1].epoch
  {
    if samples != [] {
      var n := |samples| - 1;
      SegmentsPartition(samples[..n]);
      var rest := Segments(samples[..n]);
      assert samples == samples[..n] + [samples[n]];
      if n > 0 && samples[n - 1].epoch == samples[n].epoch {
        GrownJoins(rest, samples[n]);
        GrownMaximal(rest, samples[n]);
      } else {
        AddedSums(rest, samples[n]);
        AddedMaximal(rest, samples[n]);
      }
    }
  }

  // ---------------------------------------------------------------- one counter watched over a stream

  datatype Gauge = Gauge(epoch: Option<Epoch>, value: nat)

  function Observe(g: Gauge, s: Sample): (nat, Gauge)
  {
    if g.epoch != Some(s.epoch) then (s.value, Gauge(Some(s.epoch), s.value))
    else if s.value >= g.value then (s.value - g.value, g.(value := s.value))
    else (0, g)
  }

  function Watch(samples: seq<Sample>): (nat, Gauge)
  {
    if samples == [] then (0, Gauge(None, 0))
    else
      var (sum, g) := Watch(samples[..|samples| - 1]);
      var (delta, next) := Observe(g, samples[|samples| - 1]);
      (sum + delta, next)
  }

  /** The gauge shows the peak of the segment being written. */
  predicate OnLast(segments: seq<seq<Sample>>, g: Gauge)
  {
    if segments == [] then g == Gauge(None, 0) else g.epoch.Some? && g.value == Peak(segments[|segments| - 1])
  }

  lemma WatchOne(segments: seq<seq<Sample>>, g: Gauge, x: Sample)
    requires OnLast(segments, g)
    ensures var (delta, next) := Observe(g, x);
            var more := if g.epoch == Some(x.epoch) then Grown(segments, x) else segments + [[x]];
            SumOfPeaks(more) == SumOfPeaks(segments) + delta && OnLast(more, next) && next.epoch == Some(x.epoch)
  {
    if g.epoch == Some(x.epoch) {
      GrownSums(segments, x);
      PeakNext(segments[|segments| - 1], x);
    } else {
      AddedSums(segments, x);
      assert Peak([x]) == x.value;
    }
  }

  /** Deltas telescope: they sum to the peaks of the segments. */
  lemma {:induction false} Telescopes(samples: seq<Sample>)
    ensures Watch(samples).0 == SumOfPeaks(Segments(samples))
    ensures OnLast(Segments(samples), Watch(samples).1)
    ensures samples != [] ==> Watch(samples).1.epoch == Some(samples[|samples| - 1].epoch)
  {
    if samples != [] {
      var n := |samples| - 1;
      Telescopes(samples[..n]);
      WatchOne(Segments(samples[..n]), Watch(samples[..n]).1, samples[n]);
    }
  }

  // ---------------------------------------------------------------- reports as samples

  datatype Series = LitestreamSeries(l: Label) | ReplicaSeries(l: Label) | Uploads | UploadBytes

  function Billed(t: Totals, s: Series): nat
  {
    match s
    case LitestreamSeries(l) => Get(t.litestream, l)
    case ReplicaSeries(l) => Get(t.replica, l)
    case Uploads => t.uploads
    case UploadBytes => t.uploadBytes
  }

  function Kept(st: State, s: Series): nat
  {
    match s
    case LitestreamSeries(l) => Get(st.litestream, l)
    case ReplicaSeries(l) => Get(st.replica, l)
    case Uploads => st.uploads
    case UploadBytes => st.uploadBytes
  }

  /** The worker epoch most recently named. */
  function WorkerEpoch(reports: seq<Report>): string
  {
    if reports == [] then ""
    else if reports[|reports| - 1].workerEpoch != "" then reports[|reports| - 1].workerEpoch
    else WorkerEpoch(reports[..|reports| - 1])
  }

  /** How often the named worker epoch has changed. */
  function Restarts(reports: seq<Report>): nat
  {
    if reports == [] then 0
    else
      var n := |reports| - 1;
      var before, now := WorkerEpoch(reports[..n]), reports[n].workerEpoch;
      Restarts(reports[..n]) + if before != "" && now != "" && before != now then 1 else 0
  }

  /** The value one report adds to a series, if any: replica counters come from reports that name their
      epoch, Litestream counters from reports that carry them. A label that is missing counts as 0. */
  function NewSample(r: Report, s: Series, restarts: nat): seq<Sample>
  {
    match s
    case LitestreamSeries(l) =>
      if r.litestream.Some? then [Sample(Epoch(restarts, r.litestreamEpoch), Get(r.litestream.value, l))] else []
    case ReplicaSeries(l) => if r.workerEpoch != "" then [Sample(Epoch(0, r.workerEpoch), Get(r.replica, l))] else []
    case Uploads => if r.workerEpoch != "" then [Sample(Epoch(0, r.workerEpoch), r.uploads)] else []
    case UploadBytes => if r.workerEpoch != "" then [Sample(Epoch(0, r.workerEpoch), r.uploadBytes)] else []
  }

  /** The values of one series, in order. */
  function Samples(reports: seq<Report>, s: Series): seq<Sample>
  {
    if reports == [] then []
    else Samples(reports[..|reports| - 1], s) + NewSample(reports[|reports| - 1], s, Restarts(reports))
  }

  ghost function After(reports: seq<Report>): State
  {
    if reports == [] then NO_STATE else Step(After(reports[..|reports| - 1]), reports[|reports| - 1]).1
  }

  /** The sum of one series over the deltas of a stream of reports. */
  ghost function BilledOver(reports: seq<Report>, s: Series): nat
  {
    if reports == [] then 0
    else
      var n := |reports| - 1;
      BilledOver(reports[..n], s) + Billed(Step(After(reports[..n]), reports[n]).0, s)
  }

  lemma StreamNext(reports: seq<Report>, r: Report, s: Series)
    ensures After(reports + [r]) == Step(After(reports), r).1
    ensures BilledOver(reports + [r], s) == BilledOver(reports, s) + Billed(Step(After(reports), r).0, s)
  {
    assert (reports + [r])[..|reports|] == reports;
  }

  predicate EpochsNamed(reports: seq<Report>)
  {
    forall i :: 0 <= i < |reports| && reports[i].litestream.Some? ==> reports[i].litestreamEpoch != ""
  }

  /** The kept state, read as one series' gauge after `restarts` worker restarts. */
  ghost predicate Shows(st: State, s: Series, restarts: nat, g: Gauge)
  {
    if s.LitestreamSeries? then
      if st.litestreamEpoch != "" then g == Gauge(Some(Epoch(restarts, st.litestreamEpoch)), Kept(st, s))
      else st.litestream == map[] && (g.epoch.Some? ==> g.epoch.value.life < restarts)
    else
      if st.workerEpoch != "" then g == Gauge(Some(Epoch(0, st.workerEpoch)), Kept(st, s))
      else st.replica == map[] && st.uploads == 0 && st.uploadBytes == 0 && g == Gauge(None, 0)
  }

  lemma StepReplica(st: State, r: Report, s: Series, g: Gauge)
    requires !s.LitestreamSeries? && Shows(st, s, 0, g)
    ensures var (t, next) := Step(st, r);
            if r.workerEpoch == "" then Billed(t, s) == 0 && Shows(next, s, 0, g)
            else var (delta, after) := Observe(g,
                Sample(Epoch(0, r.workerEpoch), match s case ReplicaSeries(l) => Get(r.replica, l)
                  case Uploads => r.uploads case UploadBytes => r.uploadBytes));
                 Billed(t, s) == delta && Shows(next, s, 0, after)
  {
  }

  lemma AdvancedGets(previous: Counts, current: Counts, life: Lifetime, l: Label)
    requires life.Unknown? ==> Get(previous, l) == 0
    ensures Get(Deltas(previous, current, life), l) == Advanced(previous, current, life, l).0
    ensures Get(Nexts(previous, current, life), l) == Advanced(previous, current, life, l).1
  {
  }

  lemma StepObjects(st: State, r: Report, s: Series, restarts: nat, again: nat, g: Gauge)
    requires s.LitestreamSeries? && Shows(st, s, restarts, g)
    requires again == restarts + if Classify(st.workerEpoch, r.workerEpoch).Restarted? then 1 else 0
    requires r.litestream.Some? ==> r.litestreamEpoch != ""
    ensures var (t, next) := Step(st, r);
            if r.litestream.None? then Billed(t, s) == 0 && Shows(next, s, again, g)
            else var (delta, after) := Observe(g,
                Sample(Epoch(again, r.litestreamEpoch), Get(r.litestream.value, s.l)));
                 Billed(t, s) == delta && Shows(next, s, again, after)
  {
    var kept := if Classify(st.workerEpoch, r.workerEpoch).Restarted?
        then st.(litestreamEpoch := "", litestream := map[]) else st;
    if r.litestream.Some? {
      AdvancedGets(kept.litestream, r.litestream.value, Classify(kept.litestreamEpoch, r.litestreamEpoch), s.l);
    }
  }

  lemma {:induction false} AfterWorkerEpoch(reports: seq<Report>)
    ensures After(reports).workerEpoch == WorkerEpoch(reports)
  {
    if reports != [] { AfterWorkerEpoch(reports[..|reports| - 1]); }
  }

  /** The sample a report adds to a series, if any, and how the gauge moves. */
  lemma StepSample(st: State, r: Report, s: Series, restarts: nat, again: nat, g: Gauge, more: seq<Sample>)
    requires Shows(st, s, if s.LitestreamSeries? then restarts else 0, g)
    requires s.LitestreamSeries? && r.litestream.Some? ==> r.litestreamEpoch != ""
    requires again == restarts + if Classify(st.workerEpoch, r.workerEpoch).Restarted? then 1 else 0
    requires more == NewSample(r, s, again)
    ensures |more| <= 1
    ensures var (t, next) := Step(st, r);
            var (delta, after) := if more == [] then (0, g) else Observe(g, more[0]);
            Billed(t, s) == delta && Shows(next, s, if s.LitestreamSeries? then again else 0, after)
  {
    if s.LitestreamSeries? {
      StepObjects(st, r, s, restarts, again, g);
    } else {
      StepReplica(st, r, s, g);
    }
  }

  lemma WatchMore(samples: seq<Sample>, more: seq<Sample>)
    requires |more| <= 1
    ensures var (sum, g) := Watch(samples);
            var (delta, after) := if more == [] then (0, g) else Observe(g, more[0]);
            Watch(samples + more) == (sum + delta, after)
  {
    if more == [] {
      assert samples + more == samples;
    } else {
      assert (samples + more)[..|samples|] == samples;
    }
  }

  /** The stateful deltas are those of a gauge watching the series. */
  lemma {:induction false} StreamIsWatched(reports: seq<Report>, s: Series)
    requires s.LitestreamSeries? ==> EpochsNamed(reports)
    ensures BilledOver(reports, s) == Watch(Samples(reports, s)).0
    ensures Shows(After(reports), s, if s.LitestreamSeries? then Restarts(reports) else 0, Watch(Samples(reports, s)).1)
  {
    if reports != [] {
      var n := |reports| - 1;
      var rest, r := reports[..n], reports[n];
      StreamIsWatched(rest, s);
      AfterWorkerEpoch(rest);
      var more := NewSample(r, s, Restarts(reports));
      StepSample(After(rest), r, s, Restarts(rest), Restarts(reports), Watch(Samples(rest, s)).1, more);
      WatchMore(Samples(rest, s), more);
    }
  }

  /** When every Litestream report names its epoch, what a series is billed is the sum over its maximal
      same-epoch segments of the segment's peak. */
  lemma NamedBillIsSumOfPeaks(reports: seq<Report>, s: Series)
    requires s.LitestreamSeries? ==> EpochsNamed(reports)
    ensures BilledOver(reports, s) == SumOfPeaks(Segments(Samples(reports, s)))
  {
    StreamIsWatched(reports, s);
    Telescopes(Samples(reports, s));
  }

  // ---------------------------------------------------------------- every stream, named or not

  /** What a report says of a series: the worker lifetime, the epoch if named, and the value if the label is there. */
  datatype Reading = Reading(life: nat, name: string, value: Option<nat>)

  function Find(counts: Counts, l: Label): Option<nat>
  {
    if l in counts then Some(counts[l]) else None
  }

  function NewReading(r: Report, s: Series, restarts: nat): seq<Reading>
  {
    match s
    case LitestreamSeries(l) =>
      if r.litestream.Some? then [Reading(restarts, r.litestreamEpoch, Find(r.litestream.value, l))] else []
    case ReplicaSeries(l) => if r.workerEpoch != "" then [Reading(0, r.workerEpoch, Find(r.replica, l))] else []
    case Uploads => if r.workerEpoch != "" then [Reading(0, r.workerEpoch, Some(r.uploads))] else []
    case UploadBytes => if r.workerEpoch != "" then [Reading(0, r.workerEpoch, Some(r.uploadBytes))] else []
  }

  function Readings(reports: seq<Report>, s: Series): seq<Reading>
  {
    if reports == [] then []
    else Readings(reports[..|reports| - 1], s) + NewReading(reports[|reports| - 1], s, Restarts(reports))
  }

  /** What is known between readings: the lifetime, the epoch named last in it, whether a value was seen since the
      epoch began, and the level reached. */
  datatype Dial = Dial(life: nat, name: string, open: bool, level: nat)

  const NO_DIAL := Dial(0, "", false, 0)

  /** A reading from another lifetime, or one that names another epoch, starts from nothing. */
  function Begun(d: Dial, r: Reading): Dial
  {
    if d.life != r.life then Dial(r.life, "", false, 0)
    else if d.name != "" && r.name != "" && d.name != r.name then Dial(r.life, r.name, false, 0)
    else d
  }

  /** No epoch is named on one side of the reading. */
  predicate Unnamed(d: Dial, r: Reading)
  {
    r.name == "" || Begun(d, r).name == ""
  }

  /** A missing label is a 0 between named epochs and says nothing otherwise. */
  predicate Counted(d: Dial, r: Reading)
  {
    r.value.Some? || !Unnamed(d, r)
  }

  function Value(r: Reading): nat
  {
    if r.value.Some? then r.value.value else 0
  }

  /** A value below the level, with no epoch named on one side: taken for a restart. */
  predicate Falls(d: Dial, r: Reading)
  {
    Counted(d, r) && Begun(d, r).open && Unnamed(d, r) && Value(r) < Begun(d, r).level
  }

  function Turn(d: Dial, r: Reading): Dial
  {
    var b := Begun(d, r);
    var name := if r.name != "" then r.name else b.name;
    if !Counted(d, r) then b.(name := name)
    else Dial(b.life, name, true, if Unnamed(d, r) || Value(r) >= b.level then Value(r) else b.level)
  }

  function Delta(d: Dial, r: Reading): nat
  {
    var level := Begun(d, r).level;
    if !Counted(d, r) then 0
    else if Falls(d, r) then Value(r)
    else if Value(r) >= level then Value(r) - level
    else 0
  }

  function Read(rs: seq<Reading>): Dial
  {
    if rs == [] then NO_DIAL else Turn(Read(rs[..|rs| - 1]), rs[|rs| - 1])
  }

  function Placed(pieces: seq<seq<Sample>>, cut: bool, r: Reading): seq<seq<Sample>>
  {
    var x := Sample(Epoch(r.life, r.name), Value(r));
    if cut || pieces == [] then pieces + [[x]] else Grown(pieces, x)
  }

  /** The stretches between one named epoch and the next, and between worker restarts; readings without an epoch
      belong to the stretch they fall into. */
  function Stretches(rs: seq<Reading>): seq<seq<Sample>>
  {
    if rs == [] then []
    else
      var n := |rs| - 1;
      var rest, d := Stretches(rs[..n]), Read(rs[..n]);
      if Counted(d, rs[n]) then Placed(rest, !Begun(d, rs[n]).open, rs[n]) else rest
  }

  /** The stretches, cut once more wherever a value falls with no epoch named on one side. */
  function Runs(rs: seq<Reading>): seq<seq<Sample>>
  {
    if rs == [] then []
    else
      var n := |rs| - 1;
      var rest, d := Runs(rs[..n]), Read(rs[..n]);
      if Counted(d, rs[n]) then Placed(rest, !Begun(d, rs[n]).open || Falls(d, rs[n]), rs[n]) else rest
  }

  function Pieces(reports: seq<Report>, s: Series): seq<seq<Sample>>
  {
    Runs(Readings(reports, s))
  }

  // ---------------------------------------------------------------- stretches and runs partition the values

  predicate IsCounted(rs: seq<Reading>, n: nat)
    requires n < |rs|
  {
    Counted(Read(rs[..n]), rs[n])
  }

  /** The values that count, in order. */
  function CountedSamples(rs: seq<Reading>): seq<Sample>
  {
    if rs == [] then []
    else
      var n := |rs| - 1;
      CountedSamples(rs[..n]) + if IsCounted(rs, n) then [Sample(Epoch(rs[n].life, rs[n].name), Value(rs[n]))] else []
  }

  /** A value opens a stretch: none was seen since the epoch began. */
  predicate Opens(rs: seq<Reading>, n: nat)
    requires n < |rs|
  {
    !Begun(Read(rs[..n]), rs[n]).open
  }

  predicate FallsAt(rs: seq<Reading>, n: nat)
    requires n < |rs|
  {
    Falls(Read(rs[..n]), rs[n])
  }

  /** The reading belongs to another lifetime or names another epoch. */
  predicate Renews(rs: seq<Reading>, n: nat)
    requires n < |rs|
  {
    var d := Read(rs[..n]);
    d.life != rs[n].life || (d.name != "" && rs[n].name != "" && d.name != rs[n].name)
  }

  /** Where the pieces begin, counted in values. */
  function Starts(pieces: seq<seq<Sample>>): set<nat>
  {
    if pieces == [] then {} else Starts(pieces[..|pieces| - 1]) + {|Join(pieces[..|pieces| - 1])|}
  }

  predicate AllFull(pieces: seq<seq<Sample>>)
  {
    forall i :: 0 <= i < |pieces| ==> pieces[i] != []
  }

  lemma PlacedPiece(pieces: seq<seq<Sample>>, cut: bool, r: Reading)
    requires AllFull(pieces)
    ensures AllFull(Placed(pieces, cut, r))
    ensures Join(Placed(pieces, cut, r)) == Join(pieces) + [Sample(Epoch(r.life, r.name), Value(r))]
    ensures Starts(Placed(pieces, cut, r)) == Starts(pieces) + if cut || pieces == [] then {|Join(pieces)|} else {}
  {
    var x := Sample(Epoch(r.life, r.name), Value(r));
    if cut || pieces == [] {
      AddedSums(pieces, x);
      assert (pieces + [[x]])[..|pieces|] == pieces;
    } else {
      GrownJoins(pieces, x);
      assert Grown(pieces, x)[..|pieces| - 1] == pieces[..|pieces| - 1];
    }
  }

  lemma {:induction false} StartsBelow(pieces: seq<seq<Sample>>)
    requires AllFull(pieces)
    ensures forall k :: k in Starts(pieces) ==> k < |Join(pieces)|
  {
    if pieces != [] { StartsBelow(pieces[..|pieces| - 1]); }
  }

  /** The values that count, each with whether a piece begins there. */
  ghost predicate CutAt(rs: seq<Reading>, pieces: seq<seq<Sample>>, falls: bool)
  {
    forall n: nat :: n < |rs| && IsCounted(rs, n) ==>
      (|CountedSamples(rs[..n])| in Starts(pieces) <==> Cut(rs, n, falls))
  }

  ghost predicate Partitions(rs: seq<Reading>, pieces: seq<seq<Sample>>, falls: bool)
  {
    Join(pieces) == CountedSamples(rs) && AllFull(pieces) && CutAt(rs, pieces, falls)
  }

  predicate Cut(rs: seq<Reading>, n: nat, falls: bool)
    requires n < |rs|
  {
    Opens(rs, n) || (falls && FallsAt(rs, n))
  }

  /** A longer history decides about an earlier reading as before. */
  lemma EarlierReading(rs: seq<Reading>, n: nat, m: nat, falls: bool)
    requires m < n <= |rs|
    ensures rs[..n][..m] == rs[..m]
    ensures IsCounted(rs[..n], m) == IsCounted(rs, m) && Cut(rs[..n], m, falls) == Cut(rs, m, falls)
  {
    assert rs[..n][..m] == rs[..m] && rs[..n][m] == rs[m];
  }

  lemma CutBefore(rs: seq<Reading>, pieces: seq<seq<Sample>>, more: set<nat>, falls: bool, m: nat)
    requires rs != [] && m < |rs| - 1 && IsCounted(rs, m) && Partitions(rs[..|rs| - 1], pieces, falls)
    requires more <= {|CountedSamples(rs[..|rs| - 1])|}
    ensures |CountedSamples(rs[..m])| in Starts(pieces) + more <==> Cut(rs, m, falls)
  {
    EarlierReading(rs, |rs| - 1, m, falls);
    CountedGrow(rs[..|rs| - 1], m);
  }

  lemma PartitionPlaced(rs: seq<Reading>, pieces: seq<seq<Sample>>, next: seq<seq<Sample>>, more: set<nat>, falls: bool)
    requires rs != [] && Partitions(rs[..|rs| - 1], pieces, falls) && AllFull(next)
    requires Join(next) == CountedSamples(rs) && Starts(next) == Starts(pieces) + more
    requires var n := |rs| - 1;
             more == if IsCounted(rs, n) && Cut(rs, n, falls) then {|CountedSamples(rs[..n])|} else {}
    ensures Partitions(rs, next, falls)
  {
    var n := |rs| - 1;
    StartsBelow(pieces);
    forall m: nat | m < |rs| && IsCounted(rs, m)
      ensures |CountedSamples(rs[..m])| in Starts(next) <==> Cut(rs, m, falls)
    {
      if m < n {
        CutBefore(rs, pieces, more, falls, m);
      } else {
        assert rs[..m] == rs[..n] && |CountedSamples(rs[..n])| !in Starts(pieces);
      }
    }
  }

  lemma PartitionNext(rs: seq<Reading>, pieces: seq<seq<Sample>>, next: seq<seq<Sample>>, falls: bool)
    requires rs != [] && Partitions(rs[..|rs| - 1], pieces, falls)
    requires var n := |rs| - 1; next == if IsCounted(rs, n) then Placed(pieces, Cut(rs, n, falls), rs[n]) else pieces
    requires IsCounted(rs, |rs| - 1) && pieces == [] ==> Opens(rs, |rs| - 1)
    ensures Partitions(rs, next, falls)
  {
    var n := |rs| - 1;
    if IsCounted(rs, n) {
      PlacedPiece(pieces, Cut(rs, n, falls), rs[n]);
      PartitionPlaced(rs, pieces, next, if Cut(rs, n, falls) then {|Join(pieces)|} else {}, falls);
    } else {
      assert Starts(pieces) + {} == Starts(pieces) && CountedSamples(rs[..n]) + [] == CountedSamples(rs[..n]);
      PartitionPlaced(rs, pieces, next, {}, falls);
    }
  }

  /** Earlier values have smaller places. */
  lemma {:induction false} CountedGrow(rs: seq<Reading>, m: nat)
    requires m < |rs| && IsCounted(rs, m)
    ensures |CountedSamples(rs[..m])| < |CountedSamples(rs)|
    decreases |rs|
  {
    var n := |rs| - 1;
    if m < n {
      assert rs[..n][..m] == rs[..m] && rs[..n][m] == rs[m];
      CountedGrow(rs[..n], m);
    }
  }

  /** With no value counted yet, nothing is open. */
  lemma {:induction false} OpenNeedsValue(rs: seq<Reading>)
    ensures Read(rs).open ==> Runs(rs) != [] && Stretches(rs) != []
  {
    if rs != [] { OpenNeedsValue(rs[..|rs| - 1]); }
  }

  /** Runs and stretches are the values that count, in order; a stretch begins exactly where a value opens one, and a
      run there and where a value falls with no epoch named on one side. */
  lemma {:induction false} RunsPartition(rs: seq<Reading>)
    ensures Partitions(rs, Runs(rs), true)
    ensures Partitions(rs, Stretches(rs), false)
  {
    if rs != [] {
      var n := |rs| - 1;
      RunsPartition(rs[..n]);
      OpenNeedsValue(rs[..n]);
      PartitionNext(rs, Runs(rs[..n]), Runs(rs), true);
      PartitionNext(rs, Stretches(rs[..n]), Stretches(rs), false);
    }
  }

  /** A value counted at `m`, with no new lifetime or epoch up to `n`. */
  ghost predicate SeenSince(rs: seq<Reading>, m: nat, n: nat)
  {
    m < n <= |rs| && IsCounted(rs, m) && forall k :: m < k < n ==> !Renews(rs, k)
  }

  lemma {:induction false} OpenSince(rs: seq<Reading>, n: nat)
    requires n <= |rs|
    ensures Read(rs[..n]).open <==> exists m: nat :: SeenSince(rs, m, n)
    decreases n
  {
    if n > 0 {
      var k := n - 1;
      OpenSince(rs, k);
      assert rs[..n][..k] == rs[..k];
      if IsCounted(rs, k) {
        assert SeenSince(rs, k, n);
      } else {
        if m: nat :| SeenSince(rs, m, n) { assert SeenSince(rs, m, k); }
        if !Renews(rs, k) && Read(rs[..k]).open {
          var m: nat :| SeenSince(rs, m, k);
          assert SeenSince(rs, m, n);
        }
      }
    }
  }

  /** So a value opens a stretch exactly when it is the first to count since the worker restarted or a new epoch was
      named, itself included. */
  lemma OpensExactlyWhenFirst(rs: seq<Reading>, n: nat)
    requires n < |rs|
    ensures Opens(rs, n) <==> Renews(rs, n) || forall m: nat :: !SeenSince(rs, m, n)
  {
    OpenSince(rs, n);
  }

  /** The kept state, read as a dial. */
  ghost predicate Follows(st: State, s: Series, restarts: nat, d: Dial)
  {
    && (!d.open ==> d.level == 0)
    && if s.LitestreamSeries? then
         if d.life == restarts then d.name == st.litestreamEpoch && d.level == Kept(st, s)
         else d.life < restarts && st.litestreamEpoch == "" && Kept(st, s) == 0
       else d.life == 0 && d.name == st.workerEpoch && d.level == Kept(st, s)
  }

  lemma AdvancedReads(previous: Counts, current: Counts, life: Lifetime, l: Label)
    ensures l in current || !life.Unknown? ==>
              && Get(Deltas(previous, current, life), l) == Advanced(previous, current, life, l).0
              && Get(Nexts(previous, current, life), l) == Advanced(previous, current, life, l).1
    ensures l !in current && life.Unknown? ==>
              Get(Deltas(previous, current, life), l) == 0 && Get(Nexts(previous, current, life), l) == Get(previous, l)
  {
  }

  lemma ReadReplica(st: State, r: Report, s: Series, d: Dial)
    requires !s.LitestreamSeries? && Follows(st, s, 0, d)
    ensures var (t, next) := Step(st, r);
            var more := NewReading(r, s, 0);
            if more == [] then Billed(t, s) == 0 && Follows(next, s, 0, d)
            else Billed(t, s) == Delta(d, more[0]) && Follows(next, s, 0, Turn(d, more[0]))
  {
    if s.ReplicaSeries? { AdvancedReads(st.replica, r.replica, Classify(st.workerEpoch, r.workerEpoch), s.l); }
  }

  lemma ReadObjects(st: State, r: Report, s: Series, restarts: nat, again: nat, d: Dial)
    requires s.LitestreamSeries? && Follows(st, s, restarts, d)
    requires again == restarts + if Classify(st.workerEpoch, r.workerEpoch).Restarted? then 1 else 0
    ensures var (t, next) := Step(st, r);
            var more := NewReading(r, s, again);
            if more == [] then Billed(t, s) == 0 && Follows(next, s, again, d)
            else Billed(t, s) == Delta(d, more[0]) && Follows(next, s, again, Turn(d, more[0]))
  {
    var kept := if again > restarts then st.(litestreamEpoch := "", litestream := map[]) else st;
    assert Follows(kept, s, again, d);
    if r.litestream.Some? { ReadLitestream(kept, r, s, again, d); }
  }

  lemma ReadLitestream(kept: State, r: Report, s: Series, again: nat, d: Dial)
    requires s.LitestreamSeries? && Follows(kept, s, again, d) && r.litestream.Some?
    ensures var (counts, next) := StepLitestream(kept, r);
            var reading := NewReading(r, s, again)[0];
            Get(counts, s.l) == Delta(d, reading) && Follows(next, s, again, Turn(d, reading))
  {
    AdvancedReads(kept.litestream, r.litestream.value, Classify(kept.litestreamEpoch, r.litestreamEpoch), s.l);
  }

  /** The last run peaks at the level, and nothing is open at a level above 0 unless a value was seen. */
  predicate AtLevel(runs: seq<seq<Sample>>, d: Dial)
  {
    if d.open then runs != [] && d.level == Peak(runs[|runs| - 1]) else d.level == 0
  }

  lemma RunOne(runs: seq<seq<Sample>>, d: Dial, r: Reading)
    requires AtLevel(runs, d)
    ensures var next := if Counted(d, r) then Placed(runs, !Begun(d, r).open || Falls(d, r), r) else runs;
            SumOfPeaks(next) == SumOfPeaks(runs) + Delta(d, r) && AtLevel(next, Turn(d, r))
  {
    var x := Sample(Epoch(r.life, r.name), Value(r));
    if Counted(d, r) {
      if Begun(d, r).open && !Falls(d, r) {
        GrownSums(runs, x);
        PeakNext(runs[|runs| - 1], x);
      } else {
        AddedSums(runs, x);
        assert Peak([x]) == x.value;
      }
    }
  }

  lemma ReadingsNext(rs: seq<Reading>, r: Reading)
    requires AtLevel(Runs(rs), Read(rs))
    ensures Read(rs + [r]) == Turn(Read(rs), r) && AtLevel(Runs(rs + [r]), Read(rs + [r]))
    ensures SumOfPeaks(Runs(rs + [r])) == SumOfPeaks(Runs(rs)) + Delta(Read(rs), r)
  {
    assert (rs + [r])[..|rs|] == rs;
    RunOne(Runs(rs), Read(rs), r);
  }

  lemma ReadingsMore(rs: seq<Reading>, more: seq<Reading>)
    requires |more| <= 1 && AtLevel(Runs(rs), Read(rs))
    ensures AtLevel(Runs(rs + more), Read(rs + more))
    ensures Read(rs + more) == if more == [] then Read(rs) else Turn(Read(rs), more[0])
    ensures SumOfPeaks(Runs(rs + more)) == SumOfPeaks(Runs(rs)) + if more == [] then 0 else Delta(Read(rs), more[0])
  {
    if more == [] {
      assert rs + more == rs;
    } else {
      assert more == [more[0]];
      ReadingsNext(rs, more[0]);
    }
  }

  lemma ReadReport(st: State, r: Report, s: Series, restarts: nat, again: nat, d: Dial, more: seq<Reading>)
    requires Follows(st, s, if s.LitestreamSeries? then restarts else 0, d) && more == NewReading(r, s, again)
    requires again == restarts + if Classify(st.workerEpoch, r.workerEpoch).Restarted? then 1 else 0
    ensures |more| <= 1
    ensures Billed(Step(st, r).0, s) == if more == [] then 0 else Delta(d, more[0])
    ensures Follows(Step(st, r).1, s, if s.LitestreamSeries? then again else 0, if more == [] then d
        else Turn(d, more[0]))
  {
    if s.LitestreamSeries? {
      ReadObjects(st, r, s, restarts, again, d);
    } else {
      ReadReplica(st, r, s, d);
    }
  }

  /** For every stream of reports and every series: the bill is the sum of the peaks of its runs. */
  lemma {:induction false} BilledIsSumOfPeaks(reports: seq<Report>, s: Series)
    ensures BilledOver(reports, s) == SumOfPeaks(Pieces(reports, s))
    ensures Follows(After(reports), s, if s.LitestreamSeries? then Restarts(reports) else 0, Read(Readings(reports, s)))
    ensures AtLevel(Pieces(reports, s), Read(Readings(reports, s)))
  {
    if reports != [] {
      var n := |reports| - 1;
      var rest, r := reports[..n], reports[n];
      BilledIsSumOfPeaks(rest, s);
      AfterWorkerEpoch(rest);
      var rs, more := Readings(rest, s), NewReading(r, s, Restarts(reports));
      ReadReport(After(rest), r, s, Restarts(rest), Restarts(reports), Read(rs), more);
      ReadingsMore(rs, more);
    }
  }

  // ---------------------------------------------------------------- when the named total is met

  /** Whether the stretch has fallen, and whether a fall was ever followed, in its stretch, by a value above 0. */
  function Fallen(rs: seq<Reading>): bool
  {
    if rs == [] then false
    else
      var n := |rs| - 1;
      var d := Read(rs[..n]);
      (Begun(d, rs[n]).open && Fallen(rs[..n])) || Falls(d, rs[n])
  }

  function Rebilled(rs: seq<Reading>): bool
  {
    if rs == [] then false
    else Rebilled(rs[..|rs| - 1]) || (Fallen(rs) && Value(rs[|rs| - 1]) > 0)
  }

  ghost predicate BelowPeak(stretches: seq<seq<Sample>>, d: Dial, fallen: bool, rebilled: bool)
  {
    && (d.open ==> stretches != [] && d.level <= Peak(stretches[|stretches| - 1]))
    && (d.open && !fallen ==> d.level == Peak(stretches[|stretches| - 1]))
    && (fallen ==> d.open && Peak(stretches[|stretches| - 1]) > 0 && (!rebilled ==> d.level == 0))
    && (!d.open ==> d.level == 0)
  }

  /** One reading adds to the bill at least what it adds to the stretches' peaks, and exactly that unless a value
      above 0 comes after a fall. */
  lemma StretchOne(stretches: seq<seq<Sample>>, d: Dial, r: Reading, fallen: bool, rebilled: bool)
    requires BelowPeak(stretches, d, fallen, rebilled)
    ensures var next := if Counted(d, r) then Placed(stretches, !Begun(d, r).open, r) else stretches;
            var fell := (Begun(d, r).open && fallen) || Falls(d, r);
            var over := rebilled || (fell && Value(r) > 0);
            && BelowPeak(next, Turn(d, r), fell, over)
            && SumOfPeaks(next) <= SumOfPeaks(stretches) + Delta(d, r)
            && (!over ==> SumOfPeaks(next) == SumOfPeaks(stretches) + Delta(d, r))
            && (over && !rebilled ==> SumOfPeaks(next) < SumOfPeaks(stretches) + Delta(d, r))
  {
    var x := Sample(Epoch(r.life, r.name), Value(r));
    if Counted(d, r) {
      if Begun(d, r).open {
        GrownSums(stretches, x);
        PeakNext(stretches[|stretches| - 1], x);
      } else {
        AddedSums(stretches, x);
        assert Peak([x]) == x.value;
      }
    }
  }

  lemma {:induction false} RunsAndStretches(rs: seq<Reading>)
    ensures BelowPeak(Stretches(rs), Read(rs), Fallen(rs), Rebilled(rs)) && AtLevel(Runs(rs), Read(rs))
    ensures SumOfPeaks(Stretches(rs)) <= SumOfPeaks(Runs(rs))
    ensures SumOfPeaks(Runs(rs)) == SumOfPeaks(Stretches(rs)) <==> !Rebilled(rs)
  {
    if rs != [] {
      var n := |rs| - 1;
      RunsAndStretches(rs[..n]);
      RunOne(Runs(rs[..n]), Read(rs[..n]), rs[n]);
      StretchOne(Stretches(rs[..n]), Read(rs[..n]), rs[n], Fallen(rs[..n]), Rebilled(rs[..n]));
    }
  }

  /** For every stream, the bill is never below the peaks of the stretches between named epochs, and meets them
      exactly when no value above 0 follows, in its stretch, a fall with no epoch named on one side. */
  lemma BillMeetsNamedTotalExactlyWhen(reports: seq<Report>, s: Series)
    ensures BilledOver(reports, s) >= SumOfPeaks(Stretches(Readings(reports, s)))
    ensures BilledOver(reports, s) == SumOfPeaks(Stretches(Readings(reports, s))) <==> !Rebilled(Readings(reports, s))
  {
    BilledIsSumOfPeaks(reports, s);
    RunsAndStretches(Readings(reports, s));
  }

  // ---------------------------------------------------------------- order inside a segment

  /** The same segments, each perhaps in another order. */
  predicate Reordered(a: seq<seq<Sample>>, b: seq<seq<Sample>>)
  {
    |a| == |b| && forall i :: 0 <= i < |a| ==> multiset(a[i]) == multiset(b[i])
  }

  lemma PeakOfReordered(a: seq<Sample>, b: seq<Sample>)
    requires multiset(a) == multiset(b)
    ensures Peak(a) == Peak(b)
  {
    PeakBelow(a, b);
    PeakBelow(b, a);
  }

  lemma PeakBelow(a: seq<Sample>, b: seq<Sample>)
    requires multiset(a) == multiset(b)
    ensures Peak(a) <= Peak(b)
  {
    if a != [] {
      var i :| 0 <= i < |a| && a[i].value == Peak(a);
      assert a[i] in multiset(b);
      var j :| 0 <= j < |b| && b[j] == a[i];
    }
  }

  lemma {:induction false} ReorderedSums(a: seq<seq<Sample>>, b: seq<seq<Sample>>)
    requires Reordered(a, b)
    ensures SumOfPeaks(a) == SumOfPeaks(b)
  {
    if a != [] {
      var n := |a| - 1;
      PeakOfReordered(a[n], b[n]);
      ReorderedSums(a[..n], b[..n]);
    }
  }

  /** Reports reordered inside a run bill the same. */
  lemma OrderInSegmentIrrelevant(a: seq<Report>, b: seq<Report>, s: Series)
    requires Reordered(Pieces(a, s), Pieces(b, s))
    ensures BilledOver(a, s) == BilledOver(b, s)
  {
    BilledIsSumOfPeaks(a, s);
    BilledIsSumOfPeaks(b, s);
    ReorderedSums(Pieces(a, s), Pieces(b, s));
  }

  /** Where epochs are named the runs may be read off the samples: same segments, any order inside them. */
  lemma OrderInNamedSegmentIrrelevant(a: seq<Report>, b: seq<Report>, s: Series)
    requires s.LitestreamSeries? ==> EpochsNamed(a) && EpochsNamed(b)
    requires Reordered(Segments(Samples(a, s)), Segments(Samples(b, s)))
    ensures BilledOver(a, s) == BilledOver(b, s)
  {
    NamedBillIsSumOfPeaks(a, s);
    NamedBillIsSumOfPeaks(b, s);
    ReorderedSums(Segments(Samples(a, s)), Segments(Samples(b, s)));
  }

  // ---------------------------------------------------------------- order without epochs

  function Blank(l: Label, value: nat): Report
  {
    Report("w", "", Some(map[l := value]), map[], 0, 0)
  }

  lemma BlankReadings(l: Label, a: nat, b: nat, reports: seq<Report>)
    requires reports == [Blank(l, a), Blank(l, b)]
    ensures Readings(reports, LitestreamSeries(l)) == [Reading(0, "", Some(a))] + [Reading(0, "", Some(b))]
  {
    var one := reports[..1];
    assert one[..0] == [] && Restarts(one) == 0 && WorkerEpoch(one) == "w";
    assert Readings(one, LitestreamSeries(l)) == [Reading(0, "", Some(a))];
    assert Restarts(reports) == 0;
  }

  lemma OneRun(r: Reading, one: seq<Reading>)
    requires r.life == 0 && r.name == "" && r.value.Some? && one == [r]
    ensures Read(one) == Dial(0, "", true, Value(r)) && SumOfPeaks(Runs(one)) == Value(r)
    ensures AtLevel(Runs(one), Read(one))
  {
    var none: seq<Reading> := [];
    assert one == none + [r];
    ReadingsNext(none, r);
  }

  lemma TwoRuns(first: Reading, second: Reading, both: seq<Reading>)
    requires first.life == second.life == 0 && first.name == second.name == "" && first.value.Some?
    requires second.value.Some?
    requires both == [first] + [second]
    ensures SumOfPeaks(Runs(both)) == if Value(second) >= Value(first) then Value(second)
        else Value(first) + Value(second)
  {
    OneRun(first, [first]);
    ReadingsNext([first], second);
  }

  /** So without an epoch, the same two reports in the other order bill differently whenever they differ and
      neither is zero. */
  lemma BlankEpochsDependOnOrder(l: Label, low: nat, high: nat, rising: seq<Report>, falling: seq<Report>)
    requires 0 < low < high
    requires rising == [Blank(l, low), Blank(l, high)] && falling == [Blank(l, high), Blank(l, low)]
    ensures BilledOver(rising, LitestreamSeries(l)) == high && BilledOver(falling, LitestreamSeries(l)) == high + low
  {
    BilledIsSumOfPeaks(rising, LitestreamSeries(l));
    BlankReadings(l, low, high, rising);
    TwoRuns(Reading(0, "", Some(low)), Reading(0, "", Some(high)), Readings(rising, LitestreamSeries(l)));
    BilledIsSumOfPeaks(falling, LitestreamSeries(l));
    BlankReadings(l, high, low, falling);
    TwoRuns(Reading(0, "", Some(high)), Reading(0, "", Some(low)), Readings(falling, LitestreamSeries(l)));
  }
}

/** Reports of one worker and one Litestream lifetime in another order: when the bill stays the same, whatever came
    before and comes after. */
module CostOrder {
  import opened Basics
  import opened CostCounters

  // ---------------------------------------------------------------- what one series sees of the state

  /** The kept state as one series sees it; the Litestream epoch is of no concern to the others. */
  datatype View = View(worker: string, litestream: string, kept: nat)

  function ViewOf(st: State, s: Series): View
  {
    View(st.workerEpoch, if s.LitestreamSeries? then st.litestreamEpoch else "", Kept(st, s))
  }

  /** One value, if the label is there, against what is kept under a name: the delta and what is kept next. */
  function Move(name: string, kept: nat, now: string, value: Option<nat>): (nat, nat)
  {
    var life := Classify(name, now);
    if value.None? && life.Unknown? then (0, kept)
    else AdvanceCounter(if life.Restarted? then 0 else kept, if value.Some? then value.value else 0, life)
  }

  /** A worker restart forgets the Litestream counters. */
  function Met(v: View, worker: string, s: Series): View
  {
    if !s.LitestreamSeries? then v
    else if v.worker != "" && worker != "" && v.worker != worker then View(worker, "", 0)
    else if worker != "" then v.(worker := worker)
    else v
  }

  function StepView(v: View, r: Report, s: Series): (nat, View)
  {
    var more := NewReading(r, s, 0);
    var met := Met(v, r.workerEpoch, s);
    if more == [] then (0, met)
    else if s.LitestreamSeries? then
      var (delta, level) := Move(met.litestream, met.kept, more[0].name, more[0].value);
      (delta, View(met.worker, if more[0].name != "" then more[0].name else met.litestream, level))
    else
      var (delta, level) := Move(met.worker, met.kept, more[0].name, more[0].value);
      (delta, View(more[0].name, "", level))
  }

  lemma StepObjectsView(st: State, r: Report, s: Series)
    requires s.LitestreamSeries?
    ensures (Billed(Step(st, r).0, s), ViewOf(Step(st, r).1, s)) == StepView(ViewOf(st, s), r, s)
  {
    var kept := if Classify(st.workerEpoch, r.workerEpoch).Restarted?
                then st.(litestreamEpoch := "", litestream := map[]) else st;
    if r.litestream.Some? {
      AdvancedReads(kept.litestream, r.litestream.value, Classify(kept.litestreamEpoch, r.litestreamEpoch), s.l);
    }
  }

  lemma StepReplicaView(st: State, r: Report, s: Series)
    requires !s.LitestreamSeries?
    ensures (Billed(Step(st, r).0, s), ViewOf(Step(st, r).1, s)) == StepView(ViewOf(st, s), r, s)
  {
    if s.ReplicaSeries? { AdvancedReads(st.replica, r.replica, Classify(st.workerEpoch, r.workerEpoch), s.l); }
  }

  /** The view is all that a series' bill depends on. */
  lemma StepIsStepView(st: State, r: Report, s: Series)
    ensures (Billed(Step(st, r).0, s), ViewOf(Step(st, r).1, s)) == StepView(ViewOf(st, s), r, s)
  {
    if s.LitestreamSeries? { StepObjectsView(st, r, s); } else { StepReplicaView(st, r, s); }
  }

  function Through(v: View, reports: seq<Report>, s: Series): (nat, View)
  {
    if reports == [] then (0, v)
    else
      var n := |reports| - 1;
      var (bill, w) := Through(v, reports[..n], s);
      var (delta, next) := StepView(w, reports[n], s);
      (bill + delta, next)
  }

  lemma ThroughNext(v: View, reports: seq<Report>, r: Report, s: Series)
    ensures var (bill, w) := Through(v, reports, s);
            var (delta, next) := StepView(w, r, s);
            Through(v, reports + [r], s) == (bill + delta, next)
  {
    assert (reports + [r])[..|reports|] == reports;
  }

  lemma StreamNextView(reports: seq<Report>, r: Report, s: Series)
    ensures var (delta, next) := StepView(ViewOf(After(reports), s), r, s);
            BilledOver(reports + [r], s) == BilledOver(reports, s) + delta && ViewOf(After(reports + [r]), s) == next
  {
    StreamNext(reports, r, s);
    StepIsStepView(After(reports), r, s);
  }

  lemma {:induction false} ThroughStream(x: seq<Report>, more: seq<Report>, s: Series)
    ensures BilledOver(x + more, s) == BilledOver(x, s) + Through(ViewOf(After(x), s), more, s).0
    ensures ViewOf(After(x + more), s) == Through(ViewOf(After(x), s), more, s).1
    decreases |more|
  {
    if more == [] {
      assert x + more == x;
    } else {
      var rest, r := more[..|more| - 1], more[|more| - 1];
      ThroughStream(x, rest, s);
      assert more == rest + [r] && x + more == (x + rest) + [r];
      ThroughNext(ViewOf(After(x), s), rest, r, s);
      StreamNextView(x + rest, r, s);
    }
  }

  // ---------------------------------------------------------------- reports of one lifetime

  /** All from one worker epoch and, where they carry Litestream counters, one Litestream epoch, both named. */
  predicate OneEpoch(p: seq<Report>, worker: string, litestream: string)
  {
    worker != "" && litestream != "" && forall i :: 0 <= i < |p| ==> OfEpoch(p[i], worker, litestream)
  }

  function EpochOf(s: Series, worker: string, litestream: string): string
  {
    if s.LitestreamSeries? then litestream else worker
  }

  function NameOf(v: View, s: Series): string
  {
    if s.LitestreamSeries? then v.litestream else v.worker
  }

  /** What a report adds to a series: nothing, or a value, or that the label is missing. */
  function NewValue(r: Report, s: Series): Option<Option<nat>>
  {
    var more := NewReading(r, s, 0);
    if more == [] then None else Some(more[0].value)
  }

  function Amount(value: Option<nat>): nat
  {
    if value.Some? then value.value else 0
  }

  /** All that matters of some values of one epoch: the first of them, and the highest. */
  datatype Summary = Quiet | Seen(first: Option<nat>, top: nat)

  function Noting(sum: Summary, value: Option<Option<nat>>): Summary
  {
    if value.None? then sum
    else if sum.Quiet? then Seen(value.value, Amount(value.value))
    else sum.(top := Max(sum.top, Amount(value.value)))
  }

  function Summed(p: seq<Report>, s: Series): Summary
  {
    if p == [] then Quiet else Noting(Summed(p[..|p| - 1], s), NewValue(p[|p| - 1], s))
  }

  function Max(a: nat, b: nat): nat
  {
    if a >= b then a else b
  }

  /** What was kept under this epoch's name or without one. */
  function Base(v: View, s: Series, epoch: string): nat
  {
    if NameOf(v, s) != "" && NameOf(v, s) != epoch then 0 else v.kept
  }

  /** The first value falls below a level kept without a name: it is taken for a restart. */
  predicate Restarts(v: View, s: Series, first: Option<nat>)
  {
    NameOf(v, s) == "" && first.Some? && first.value < v.kept
  }

  /** The bill and the level after some values of one epoch. */
  function Over(v: View, s: Series, epoch: string, sum: Summary): (nat, nat)
    requires sum.Seen?
  {
    if Restarts(v, s, sum.first) then (sum.top, sum.top)
    else var base := Base(v, s, epoch); (Max(base, sum.top) - base, Max(base, sum.top))
  }

  function Passed(v: View, s: Series, worker: string, litestream: string, sum: Summary): (nat, View)
  {
    var met := Met(v, worker, s);
    if sum.Quiet? then (0, met)
    else
      var (bill, level) := Over(met, s, EpochOf(s, worker, litestream), sum);
      (bill, if s.LitestreamSeries? then View(met.worker, litestream, level) else View(worker, "", level))
  }

  predicate OfEpoch(r: Report, worker: string, litestream: string)
  {
    && worker != "" && litestream != "" && r.workerEpoch == worker
    && (r.litestream.Some? ==> r.litestreamEpoch == litestream)
  }

  /** The first report meets the view as it is. */
  lemma PassFirst(v: View, r: Report, s: Series, worker: string, litestream: string)
    requires OfEpoch(r, worker, litestream)
    ensures StepView(v, r, s) == Passed(v, s, worker, litestream, Noting(Quiet, NewValue(r, s)))
  {
  }

  lemma PassNextObjects(v: View, sum: Summary, r: Report, s: Series, worker: string, litestream: string)
    requires s.LitestreamSeries? && OfEpoch(r, worker, litestream)
    requires sum.Seen? && !Restarts(Met(v, worker, s), s, sum.first) ==> Amount(sum.first) <= sum.top
    ensures var (bill, w) := Passed(v, s, worker, litestream, sum);
            var (delta, next) := StepView(w, r, s);
            (bill + delta, next) == Passed(v, s, worker, litestream, Noting(sum, NewValue(r, s)))
  {
  }

  /** A later one meets the worker and, if there were values, their epoch and level. */
  lemma PassNext(v: View, sum: Summary, r: Report, s: Series, worker: string, litestream: string)
    requires OfEpoch(r, worker, litestream) && (!s.LitestreamSeries? ==> sum.Seen?)
    requires sum.Seen? && !Restarts(Met(v, worker, s), s, sum.first) ==> Amount(sum.first) <= sum.top
    ensures var (bill, w) := Passed(v, s, worker, litestream, sum);
            var (delta, next) := StepView(w, r, s);
            (bill + delta, next) == Passed(v, s, worker, litestream, Noting(sum, NewValue(r, s)))
  {
    if s.LitestreamSeries? { PassNextObjects(v, sum, r, s, worker, litestream); }
  }

  lemma {:induction false} PassAll(v: View, p: seq<Report>, s: Series, worker: string, litestream: string)
    requires OneEpoch(p, worker, litestream) && p != []
    ensures Through(v, p, s) == Passed(v, s, worker, litestream, Summed(p, s))
    ensures !s.LitestreamSeries? ==> Summed(p, s).Seen?
    ensures Summed(p, s).Seen? ==> Amount(Summed(p, s).first) <= Summed(p, s).top
    decreases |p|
  {
    var rest, r := p[..|p| - 1], p[|p| - 1];
    if rest == [] {
      PassFirst(v, r, s, worker, litestream);
    } else {
      PassAll(v, rest, s, worker, litestream);
      PassNext(v, Summed(rest, s), r, s, worker, litestream);
    }
  }

  // ---------------------------------------------------------------- order

  ghost predicate Reads(p: seq<Report>, s: Series, value: Option<nat>)
  {
    exists i :: 0 <= i < |p| && NewValue(p[i], s) == Some(value)
  }

  lemma {:induction false} SummedFrom(p: seq<Report>, s: Series)
    ensures var sum := Summed(p, s);
            && (sum.Quiet? <==> forall i :: 0 <= i < |p| ==> NewValue(p[i], s).None?)
            && (sum.Seen? ==> Reads(p, s, sum.first) && (sum.top == 0 || Reads(p, s, Some(sum.top))))
            && (sum.Seen? ==> forall i :: 0 <= i < |p| && NewValue(p[i], s).Some? ==>
                                            Amount(NewValue(p[i], s).value) <= sum.top)
    decreases |p|
  {
    if p != [] {
      var n := |p| - 1;
      SummedFrom(p[..n], s);
      var rest, sum := Summed(p[..n], s), Summed(p, s);
      forall value | Reads(p[..n], s, value) ensures Reads(p, s, value) { ReadsMore(p, s, value); }
      if NewValue(p[n], s).Some? { assert Reads(p, s, NewValue(p[n], s).value); }
      assert forall i :: 0 <= i < n ==> p[..n][i] == p[i];
    }
  }

  lemma ReadsMore(p: seq<Report>, s: Series, value: Option<nat>)
    requires p != [] && Reads(p[..|p| - 1], s, value)
    ensures Reads(p, s, value)
  {
    var i :| 0 <= i < |p| - 1 && NewValue(p[..|p| - 1][i], s) == Some(value);
    assert p[i] == p[..|p| - 1][i];
  }

  lemma ReadsReordered(p: seq<Report>, q: seq<Report>, s: Series, value: Option<nat>)
    requires multiset(p) == multiset(q) && Reads(p, s, value)
    ensures Reads(q, s, value)
  {
    var i :| 0 <= i < |p| && NewValue(p[i], s) == Some(value);
    assert p[i] in multiset(q);
    var j :| 0 <= j < |q| && q[j] == p[i];
  }

  lemma TopBelow(p: seq<Report>, q: seq<Report>, s: Series)
    requires multiset(p) == multiset(q) && Summed(p, s).Seen?
    ensures Summed(q, s).Seen? && Summed(p, s).top <= Summed(q, s).top && Reads(q, s, Summed(p, s).first)
  {
    SummedFrom(p, s);
    SummedFrom(q, s);
    ReadsReordered(p, q, s, Summed(p, s).first);
    if Summed(p, s).top > 0 { ReadsReordered(p, q, s, Some(Summed(p, s).top)); }
  }

  lemma SameTop(p: seq<Report>, q: seq<Report>, s: Series)
    requires multiset(p) == multiset(q)
    ensures Summed(p, s).Seen? <==> Summed(q, s).Seen?
    ensures Summed(p, s).Seen? ==> Summed(p, s).top == Summed(q, s).top && Reads(p, s, Summed(q, s).first)
  {
    if Summed(p, s).Seen? { TopBelow(p, q, s); }
    if Summed(q, s).Seen? { TopBelow(q, p, s); }
  }

  /** No level was kept without a name, or the values agree on whether they fall below it: none does, or all do. */
  ghost predicate Agreeing(v: View, p: seq<Report>, s: Series)
  {
    || NameOf(v, s) != "" || v.kept == 0
    || (forall value :: Reads(p, s, value) ==> !Restarts(v, s, value))
    || (forall value :: Reads(p, s, value) ==> Restarts(v, s, value))
  }

  lemma AgreeingPair(v: View, p: seq<Report>, s: Series, a: Option<nat>, b: Option<nat>)
    requires Agreeing(v, p, s) && Reads(p, s, a) && Reads(p, s, b)
    ensures Restarts(v, s, a) == Restarts(v, s, b)
  {
  }

  lemma SamePassed(v: View, s: Series, worker: string, litestream: string, a: Summary, b: Summary)
    requires a.Seen? == b.Seen?
    requires a.Seen? ==>
               a.top == b.top && Restarts(Met(v, worker, s), s, a.first) == Restarts(Met(v, worker, s), s, b.first)
    ensures Passed(v, s, worker, litestream, a) == Passed(v, s, worker, litestream, b)
  {
  }

  lemma AgreeingPassed(v: View, p: seq<Report>, q: seq<Report>, s: Series, worker: string, litestream: string)
    requires multiset(p) == multiset(q) && Agreeing(Met(v, worker, s), p, s)
    ensures Passed(v, s, worker, litestream, Summed(p, s)) == Passed(v, s, worker, litestream, Summed(q, s))
  {
    SameTop(p, q, s);
    SummedFrom(p, s);
    if Summed(p, s).Seen? {
      AgreeingPair(Met(v, worker, s), p, s, Summed(p, s).first, Summed(q, s).first);
    }
    SamePassed(v, s, worker, litestream, Summed(p, s), Summed(q, s));
  }

  /** What a caller can check before the reports arrive: what is kept, and what they hold. */
  ghost predicate Steady(x: seq<Report>, p: seq<Report>, s: Series, worker: string)
  {
    Agreeing(Met(ViewOf(After(x), s), worker, s), p, s)
  }

  ghost predicate Alike(x: seq<Report>, p: seq<Report>, q: seq<Report>, y: seq<Report>, s: Series)
  {
    BilledOver(x + p + y, s) == BilledOver(x + q + y, s)
  }

  lemma BillOfThree(x: seq<Report>, p: seq<Report>, y: seq<Report>, s: Series)
    ensures var (bill, v) := Through(ViewOf(After(x), s), p, s);
            BilledOver(x + p + y, s) == BilledOver(x, s) + bill + Through(v, y, s).0
  {
    ThroughStream(x, p, s);
    ThroughStream(x + p, y, s);
  }

  lemma SteadyIsAlike(x: seq<Report>, p: seq<Report>, q: seq<Report>, y: seq<Report>, s: Series, worker: string,
                      litestream: string)
    requires OneEpoch(p, worker, litestream) && multiset(q) == multiset(p) && Steady(x, p, s, worker)
    ensures Alike(x, p, q, y, s)
  {
    OneEpochReordered(p, q, worker, litestream);
    var v := ViewOf(After(x), s);
    BillOfThree(x, p, y, s);
    BillOfThree(x, q, y, s);
    if p != [] {
      PassAll(v, p, s, worker, litestream);
      PassAll(v, q, s, worker, litestream);
      AgreeingPassed(v, p, q, s, worker, litestream);
    }
  }

  lemma OneEpochReordered(p: seq<Report>, q: seq<Report>, worker: string, litestream: string)
    requires OneEpoch(p, worker, litestream) && multiset(q) == multiset(p)
    ensures OneEpoch(q, worker, litestream) && (p == [] <==> q == [])
  {
    assert |p| == |multiset(p)| == |multiset(q)| == |q|;
    forall i | 0 <= i < |q| ensures OfEpoch(q[i], worker, litestream) {
      assert q[i] in multiset(p);
      var j :| 0 <= j < |p| && p[j] == q[i];
    }
  }

  // ---------------------------------------------------------------- the condition is exact

  function Fronted(p: seq<Report>, i: nat): seq<Report>
    requires i < |p|
  {
    [p[i]] + (p[..i] + p[i + 1..])
  }

  lemma FrontedPermutes(p: seq<Report>, i: nat)
    requires i < |p|
    ensures multiset(Fronted(p, i)) == multiset(p)
  {
    assert p == p[..i] + [p[i]] + p[i + 1..];
  }

  lemma {:induction false} FirstValue(r: Report, rest: seq<Report>, s: Series)
    requires NewValue(r, s).Some?
    ensures Summed([r] + rest, s).Seen? && Summed([r] + rest, s).first == NewValue(r, s).value
    decreases |rest|
  {
    if rest == [] {
      assert [r] + rest == [r] && [r][..0] == [];
    } else {
      var n := |rest| - 1;
      FirstValue(r, rest[..n], s);
      assert ([r] + rest)[..|rest|] == [r] + rest[..n] && ([r] + rest)[|rest|] == rest[n];
    }
  }

  /** A late report above everything, of the same lifetime. */
  function Late(worker: string, litestream: string, l: Label, value: nat): Report
  {
    Report(worker, litestream, Some(map[l := value]), map[], 0, 0)
  }

  lemma LateBill(v: View, s: Series, worker: string, litestream: string, value: nat, late: seq<Report>)
    requires s.LitestreamSeries? && worker != "" && litestream != "" && late == [Late(worker, litestream, s.l, value)]
    requires v.worker == worker && v.litestream == litestream && v.kept <= value
    ensures Through(v, late, s).0 == value - v.kept
  {
    assert late[..0] == [];
    assert Through(v, late[..0], s) == (0, v);
  }

  /** With the report at `i` first and a late one last: the level kept without a name is billed again, or it is not. */
  lemma FrontedBill(x: seq<Report>, p: seq<Report>, i: nat, s: Series, worker: string, litestream: string, value: nat)
    requires s.LitestreamSeries? && OneEpoch(p, worker, litestream) && i < |p| && NewValue(p[i], s).Some?
    requires var met := Met(ViewOf(After(x), s), worker, s);
             met.litestream == "" && Summed(p, s).Seen? && value >= Max(met.kept, Summed(p, s).top)
    ensures var met := Met(ViewOf(After(x), s), worker, s);
            BilledOver(x + Fronted(p, i) + [Late(worker, litestream, s.l, value)], s)
            == BilledOver(x, s) + value - if Restarts(met, s, NewValue(p[i], s).value) then 0 else met.kept
  {
    var q, late := Fronted(p, i), [Late(worker, litestream, s.l, value)];
    var v := ViewOf(After(x), s);
    FrontedPermutes(p, i);
    OneEpochReordered(p, q, worker, litestream);
    PassAll(v, q, s, worker, litestream);
    FirstValue(p[i], p[..i] + p[i + 1..], s);
    SameTop(p, q, s);
    BillOfThree(x, q, late, s);
    LateBill(Through(v, q, s).1, s, worker, litestream, value, late);
  }

  lemma Disagreeing(v: View, p: seq<Report>, s: Series) returns (i: nat, j: nat)
    requires !Agreeing(v, p, s)
    ensures i < |p| && j < |p| && NewValue(p[i], s).Some? && NewValue(p[j], s).Some?
    ensures Restarts(v, s, NewValue(p[i], s).value) && !Restarts(v, s, NewValue(p[j], s).value)
    ensures Summed(p, s).Seen?
  {
    var low :| Reads(p, s, low) && Restarts(v, s, low);
    var high :| Reads(p, s, high) && !Restarts(v, s, high);
    i :| 0 <= i < |p| && NewValue(p[i], s) == Some(low);
    j :| 0 <= j < |p| && NewValue(p[j], s) == Some(high);
    SummedFrom(p, s);
  }

  lemma UnsteadyIsNotAlike(x: seq<Report>, p: seq<Report>, s: Series, worker: string, litestream: string)
    returns (q: seq<Report>, y: seq<Report>)
    requires s.LitestreamSeries? && OneEpoch(p, worker, litestream) && !Steady(x, p, s, worker)
    ensures multiset(q) == multiset(p) && !Alike(x, p, q, y, s)
  {
    var met := Met(ViewOf(After(x), s), worker, s);
    var i, j := Disagreeing(met, p, s);
    var value := Max(met.kept, Summed(p, s).top);
    FrontedPermutes(p, i);
    FrontedPermutes(p, j);
    FrontedBill(x, p, i, s, worker, litestream, value);
    FrontedBill(x, p, j, s, worker, litestream, value);
    y := [Late(worker, litestream, s.l, value)];
    q := if Alike(x, p, Fronted(p, i), y, s) then Fronted(p, j) else Fronted(p, i);
  }

  /** Counters other than Litestream's keep nothing before they are named. */
  lemma ReplicaIsSteady(x: seq<Report>, p: seq<Report>, s: Series, worker: string)
    requires !s.LitestreamSeries?
    ensures Steady(x, p, s, worker)
  {
    StreamIsWatched(x, s);
  }

  /** Reports of one named lifetime may come in any order, whatever came before and comes after, exactly when no level
      was kept without a Litestream epoch before them or their values agree on whether they fall below it. */
  lemma ReorderedReportsBillAlikeExactlyWhen(x: seq<Report>, p: seq<Report>, s: Series, worker: string,
                                             litestream: string)
    requires OneEpoch(p, worker, litestream)
    ensures (forall q, y :: multiset(q) == multiset(p) ==> Alike(x, p, q, y, s)) <==> Steady(x, p, s, worker)
  {
    if Steady(x, p, s, worker) {
      forall q, y | multiset(q) == multiset(p) ensures Alike(x, p, q, y, s) {
        SteadyIsAlike(x, p, q, y, s, worker, litestream);
      }
    } else {
      if !s.LitestreamSeries? { ReplicaIsSteady(x, p, s, worker); }
      var q, y := UnsteadyIsNotAlike(x, p, s, worker, litestream);
    }
  }

  /** So where every epoch before is named, reports of one lifetime in another order are billed alike, for every
      series and whatever comes after. */
  lemma NamedReportsBillAlike(x: seq<Report>, p: seq<Report>, q: seq<Report>, y: seq<Report>, s: Series, worker: string,
                              litestream: string)
    requires OneEpoch(p, worker, litestream) && multiset(q) == multiset(p) && EpochsNamed(x)
    ensures BilledOver(x + p + y, s) == BilledOver(x + q + y, s)
  {
    StreamIsWatched(x, s);
    SteadyIsAlike(x, p, q, y, s, worker, litestream);
  }

  lemma AfterBlank(l: Label, x: seq<Report>, value: nat)
    requires x == [Blank(l, value)]
    ensures ViewOf(After(x), LitestreamSeries(l)) == View("w", "", value) && BilledOver(x, LitestreamSeries(l)) == value
  {
    var none: seq<Report> := [];
    StreamNextView(none, Blank(l, value), LitestreamSeries(l));
    assert none + [Blank(l, value)] == x;
  }

  lemma TwoValues(l: Label, p: seq<Report>, a: nat, b: nat)
    requires p == [Late("w", "e", l, a)] + [Late("w", "e", l, b)]
    ensures OneEpoch(p, "w", "e") && Summed(p, LitestreamSeries(l)) == Seen(Some(a), Max(a, b))
  {
    var one := p[..1];
    assert one[..0] == [] && one[0] == Late("w", "e", l, a);
    assert Summed(one, LitestreamSeries(l)) == Seen(Some(a), a);
  }

  lemma BlankThenTwo(l: Label, x: seq<Report>, p: seq<Report>, level: nat, a: nat, b: nat)
    requires x == [Blank(l, level)] && p == [Late("w", "e", l, a)] + [Late("w", "e", l, b)]
    ensures BilledOver(x + p, LitestreamSeries(l)) == if a < level then level + Max(a, b) else Max(level, Max(a, b))
  {
    var s := LitestreamSeries(l);
    AfterBlank(l, x, level);
    TwoValues(l, p, a, b);
    ThroughStream(x, p, s);
    PassAll(ViewOf(After(x), s), p, s, "w", "e");
  }

  lemma SwappedPair(a: Report, b: Report, p: seq<Report>, q: seq<Report>)
    requires p == [a] + [b] && q == [b] + [a]
    ensures multiset(q) == multiset(p)
  {
  }

  /** Where one was not, they need not be: 5 without an epoch, then 3 and 7 of one epoch, bill 12, and 7 when the 7
      comes first. */
  lemma UnnamedLevelMakesOrderMatter(l: Label, x: seq<Report>, p: seq<Report>, q: seq<Report>)
    requires x == [Blank(l, 5)] && p == [Late("w", "e", l, 3)] + [Late("w", "e", l, 7)]
    requires q == [Late("w", "e", l, 7)] + [Late("w", "e", l, 3)]
    ensures multiset(q) == multiset(p)
    ensures BilledOver(x + p, LitestreamSeries(l)) == 12 && BilledOver(x + q, LitestreamSeries(l)) == 7
  {
    SwappedPair(Late("w", "e", l, 3), Late("w", "e", l, 7), p, q);
    BlankThenTwo(l, x, p, 5, 3, 7);
    BlankThenTwo(l, x, q, 5, 7, 3);
  }
}

/** Streaks of transient object-store failures: the walk that marks unescalated ones as environmental, the
    ingest-time walk backwards from one failure, and the corroboration walk over pages of history.
    A check is inconclusive, passed, or failed; a failure is transient by its classification, or not. */
module FailureStreaks {

  datatype Kind = Inconclusive | Passed | Transient | Actionable

  datatype Verification = Verification(id: nat, at: int, kind: Kind)

  type History = seq<Verification>

  predicate OldestFirst(h: History)
  {
    forall i, j :: 0 <= i < j < |h| ==> h[i].at < h[j].at
  }

  predicate NewestFirst(h: History)
  {
    forall i, j :: 0 <= i < j < |h| ==> h[i].at > h[j].at
  }

  predicate DistinctTimes(h: History)
  {
    forall i, j :: 0 <= i < j < |h| ==> h[i].at != h[j].at
  }

  predicate DistinctIds(h: History)
  {
    forall i, j :: 0 <= i < j < |h| ==> h[i].id != h[j].id
  }

  // ---------------------------------------------------------------- the walk forwards

  predicate Breaks(v: Verification)
  {
    v.kind.Passed? || v.kind.Actionable?
  }

  /** The transient failures since the last pass or other failure; inconclusive checks do not count. */
  function Streak(h: History): nat
  {
    if h == [] then 0
    else
      match h[|h| - 1].kind
      case Inconclusive => Streak(h[..|h| - 1])
      case Transient => Streak(h[..|h| - 1]) + 1
      case _ => 0
  }

  function Transients(h: History): nat
  {
    if h == [] then 0 else Transients(h[..|h| - 1]) + if h[|h| - 1].kind.Transient? then 1 else 0
  }

  /** That is: all the transient failures after the last row that passed or failed otherwise. */
  lemma {:induction false} StreakSinceTheBreak(h: History, k: nat)
    requires k <= |h| && (k > 0 ==> Breaks(h[k - 1])) && forall i :: k <= i < |h| ==> !Breaks(h[i])
    ensures Streak(h) == Transients(h[k..])
    decreases |h|
  {
    if k < |h| {
      var n := |h| - 1;
      StreakSinceTheBreak(h[..n], k);
      assert h[k..][..n - k] == h[..n][k..];
    }
  }

  /** The transient failures, oldest first, whose streak has not gone over the threshold. */
  function Environmental(h: History, threshold: nat): set<nat>
  {
    if h == [] then {}
    else
      Environmental(h[..|h| - 1], threshold) +
      if h[|h| - 1].kind.Transient? && Streak(h) <= threshold then {h[|h| - 1].id} else {}
  }

  predicate Sorted(h: History)
  {
    forall i, j :: 0 <= i < j < |h| ==> h[i].at <= h[j].at
  }

  method Insert(ordered: History, v: Verification) returns (next: History)
    requires Sorted(ordered)
    ensures Sorted(next) && multiset(next) == multiset(ordered) + multiset{v}
    ensures OldestFirst(ordered) && (forall w :: w in ordered ==> w.at != v.at) ==> OldestFirst(next)
  {
    var k := |ordered|;
    while k > 0 && ordered[k - 1].at > v.at
      invariant 0 <= k <= |ordered| && forall i :: k <= i < |ordered| ==> ordered[i].at > v.at
    {
      k := k - 1;
    }
    InsertedSorted(ordered, k, v);
    InsertedContents(ordered, k, v);
    next := Inserted(ordered, k, v);
  }

  function Inserted(ordered: History, k: nat, v: Verification): History
    requires k <= |ordered|
  {
    ordered[..k] + [v] + ordered[k..]
  }

  lemma InsertedContents(ordered: History, k: nat, v: Verification)
    requires k <= |ordered|
    ensures multiset(Inserted(ordered, k, v)) == multiset(ordered) + multiset{v}
  {
    assert ordered == ordered[..k] + ordered[k..];
  }

  lemma InsertedSorted(ordered: History, k: nat, v: Verification)
    requires Sorted(ordered) && k <= |ordered|
    requires (k > 0 ==> ordered[k - 1].at <= v.at) && forall i :: k <= i < |ordered| ==> ordered[i].at > v.at
    ensures Sorted(Inserted(ordered, k, v))
    ensures OldestFirst(ordered) && (k > 0 ==> ordered[k - 1].at < v.at) ==> OldestFirst(Inserted(ordered, k, v))
  {
    var next := Inserted(ordered, k, v);
    forall i, j | 0 <= i < j < |next|
      ensures next[i].at <= next[j].at
      ensures OldestFirst(ordered) && (k > 0 ==> ordered[k - 1].at < v.at) ==> next[i].at < next[j].at
    {
      assert next[i] == if i < k then ordered[i] else if i == k then v else ordered[i - 1];
      assert next[j] == if j < k then ordered[j] else if j == k then v else ordered[j - 1];
      assert i < k ==> ordered[i].at <= ordered[k - 1].at;
    }
  }

  method SortOldestFirst(rows: History) returns (ordered: History)
    ensures multiset(ordered) == multiset(rows) && Sorted(ordered)
    ensures DistinctTimes(rows) ==> OldestFirst(ordered)
  {
    ordered := [];
    for n := 0 to |rows|
      invariant multiset(ordered) == multiset(rows[..n]) && Sorted(ordered)
      invariant DistinctTimes(rows) ==> OldestFirst(ordered)
    {
      assert rows[..n + 1] == rows[..n] + [rows[n]];
      PermutedSameRows(ordered, rows[..n]);
      ordered := Insert(ordered, rows[n]);
    }
    assert rows[..|rows|] == rows;
  }

  /** environmentalVerificationIDs: rows come in any order. */
  method EnvironmentalVerificationIDs(rows: History, threshold: nat) returns (environmental: set<nat>, ordered: History)
    ensures multiset(ordered) == multiset(rows) && Sorted(ordered) && (DistinctTimes(rows) ==> OldestFirst(ordered))
    ensures environmental == Environmental(ordered, threshold)
  {
    ordered := SortOldestFirst(rows);
    environmental := {};
    var count := 0;
    for i := 0 to |ordered|
      invariant count == Streak(ordered[..i]) && environmental == Environmental(ordered[..i], threshold)
    {
      assert ordered[..i + 1][..i] == ordered[..i];
      var v := ordered[i];
      if v.kind.Inconclusive? {
      } else if !v.kind.Transient? {
        count := 0;
      } else {
        count := count + 1;
        if count <= threshold { environmental := environmental + {v.id}; }
      }
    }
    assert ordered[..|ordered|] == ordered;
  }

  // ---------------------------------------------------------------- the walk backwards

  /** The transient failures at the head of a newest-first history, inconclusive checks skipped. */
  function Recent(previous: History): nat
  {
    if previous == [] then 0
    else
      match previous[0].kind
      case Inconclusive => Recent(previous[1..])
      case Transient => 1 + Recent(previous[1..])
      case _ => 0
  }

  /** environmentalStreakEscalated: one more transient failure after these, newest first. */
  method EnvironmentalStreakEscalated(previous: History, threshold: nat) returns (escalated: bool)
    ensures escalated <==> 1 + Recent(previous) > threshold
  {
    var count := 1;
    var i := 0;
    while i < |previous|
      invariant 0 <= i <= |previous| && 1 + Recent(previous) == count + Recent(previous[i..])
    {
      if Breaks(previous[i]) { break; }
      if previous[i].kind.Transient? { count := count + 1; }
      i := i + 1;
    }
    return count > threshold;
  }

  ghost predicate Before(rows: History, v: Verification, previous: History)
  {
    NewestFirst(previous) && forall w :: w in previous <==> w in rows && w.at < v.at
  }

  ghost predicate SameRows(a: History, b: History)
  {
    forall w :: w in a <==> w in b
  }

  function Reverse(h: History): (r: History)
    ensures |r| == |h| && forall i :: 0 <= i < |h| ==> r[i] == h[|h| - 1 - i]
  {
    if h == [] then [] else [h[|h| - 1]] + Reverse(h[..|h| - 1])
  }

  /** verificationsBefore: the rows that started before one, newest first. */
  method VerificationsBefore(rows: History, v: Verification) returns (previous: History)
    ensures forall w :: w in previous <==> w in rows && w.at < v.at
    ensures Sorted(Reverse(previous))
    ensures DistinctTimes(rows) ==> Before(rows, v, previous)
  {
    var earlier: History := [];
    for n := 0 to |rows|
      invariant earlier == EarlierThan(rows[..n], v)
    {
      assert rows[..n + 1][..n] == rows[..n];
      if rows[n].at < v.at { earlier := earlier + [rows[n]]; }
    }
    assert rows[..|rows|] == rows;
    var ordered := SortOldestFirst(earlier);
    previous := Reverse(ordered);
    EarlierSelects(rows, v);
    PermutedSameRows(ordered, earlier);
    ReverseSameRows(ordered);
    assert Reverse(previous) == ordered;
  }

  function EarlierThan(rows: History, v: Verification): History
  {
    if rows == [] then []
    else
      var rest := EarlierThan(rows[..|rows| - 1], v);
      if rows[|rows| - 1].at < v.at then rest + [rows[|rows| - 1]] else rest
  }

  lemma {:induction false} EarlierSelects(rows: History, v: Verification)
    ensures forall w :: w in EarlierThan(rows, v) <==> w in rows && w.at < v.at
    ensures DistinctTimes(rows) ==> DistinctTimes(EarlierThan(rows, v))
  {
    if rows != [] {
      var n := |rows| - 1;
      EarlierSelects(rows[..n], v);
      assert rows == rows[..n] + [rows[n]];
      forall i | 0 <= i < |EarlierThan(rows[..n], v)|
        ensures EarlierThan(rows[..n], v)[i] in rows[..n]
      {
        assert EarlierThan(rows[..n], v)[i] in EarlierThan(rows[..n], v);
      }
    }
  }

  lemma ReverseSameRows(h: History)
    ensures SameRows(Reverse(h), h)
  {
    forall w | w in h ensures w in Reverse(h) {
      var i :| 0 <= i < |h| && h[i] == w;
      assert Reverse(h)[|h| - 1 - i] == w;
    }
  }

  lemma {:induction false} RecentIsStreak(h: History, previous: History)
    requires OldestFirst(h) && NewestFirst(previous) && SameRows(previous, h)
    ensures Recent(previous) == Streak(h)
    decreases |h|
  {
    assert |previous| > 0 ==> previous[0] in previous;
    if h != [] {
      var n := |h| - 1;
      SameNewest(h, previous);
      SameRest(h, previous);
      RecentIsStreak(h[..n], previous[1..]);
    }
  }

  lemma SameNewest(h: History, previous: History)
    requires h != [] && OldestFirst(h) && NewestFirst(previous) && SameRows(previous, h)
    ensures previous != [] && previous[0] == h[|h| - 1]
  {
    assert h[|h| - 1] in previous;
    assert previous[0] in h;
  }

  lemma SameRest(h: History, previous: History)
    requires h != [] && OldestFirst(h) && NewestFirst(previous) && SameRows(previous, h)
    requires previous != [] && previous[0] == h[|h| - 1]
    ensures OldestFirst(h[..|h| - 1]) && NewestFirst(previous[1..])
    ensures SameRows(previous[1..], h[..|h| - 1])
  {
    forall w | w in previous[1..] ensures w in h[..|h| - 1] {
      var i :| 0 <= i < |previous[1..]| && previous[1..][i] == w;
      assert previous[i + 1] == w && w in h;
    }
    forall w | w in h[..|h| - 1] ensures w in previous[1..] {
      var i :| 0 <= i < |h| - 1 && h[i] == w;
      assert h[i] in previous;
      var j :| 0 <= j < |previous| && previous[j] == w;
      assert previous[1..][j - 1] == w;
    }
  }

  lemma {:induction false} EnvironmentalAt(h: History, threshold: nat, i: nat)
    requires DistinctIds(h) && i < |h|
    ensures h[i].id in Environmental(h, threshold) <==> h[i].kind.Transient? && Streak(h[..i + 1]) <= threshold
    decreases |h|
  {
    var n := |h| - 1;
    if i == n {
      assert h[..i + 1] == h;
      NotAmong(h[..n], threshold, h[n].id);
    } else {
      EnvironmentalAt(h[..n], threshold, i);
      assert h[..n][..i + 1] == h[..i + 1];
    }
  }

  lemma {:induction false} NotAmong(h: History, threshold: nat, id: nat)
    requires forall i :: 0 <= i < |h| ==> h[i].id != id
    ensures id !in Environmental(h, threshold)
  {
    if h != [] { NotAmong(h[..|h| - 1], threshold, id); }
  }

  lemma PermutedSameRows(a: History, b: History)
    requires multiset(a) == multiset(b)
    ensures SameRows(a, b)
  {
    forall w ensures w in a <==> w in b {
      assert w in a <==> w in multiset(a);
      assert w in b <==> w in multiset(b);
    }
  }

  lemma EarlierRows(ordered: History, i: nat, w: Verification)
    requires OldestFirst(ordered) && i < |ordered|
    ensures w in ordered[..i] <==> w in ordered && w.at < ordered[i].at
  {
    if w in ordered && w.at < ordered[i].at {
      var j :| 0 <= j < |ordered| && ordered[j] == w;
      assert ordered[..i][j] == w;
    }
  }

  lemma BeforeIsPrefix(rows: History, ordered: History, i: nat, previous: History)
    requires SameRows(ordered, rows) && OldestFirst(ordered) && i < |ordered| && Before(rows, ordered[i], previous)
    ensures SameRows(previous, ordered[..i])
  {
    forall w ensures w in previous <==> w in ordered[..i] { EarlierRows(ordered, i, w); }
  }

  lemma WalksAgreeAt(ordered: History, i: nat, previous: History, threshold: nat)
    requires OldestFirst(ordered) && DistinctIds(ordered) && i < |ordered| && ordered[i].kind.Transient?
    requires NewestFirst(previous) && SameRows(previous, ordered[..i])
    ensures 1 + Recent(previous) > threshold <==> ordered[i].id !in Environmental(ordered, threshold)
  {
    RecentIsStreak(ordered[..i], previous);
    assert ordered[..i + 1][..i] == ordered[..i];
    EnvironmentalAt(ordered, threshold, i);
  }

  /** The two walks agree: for every history and every transient failure in it, the walk backwards over the
      earlier rows says "escalated" exactly when the walk forwards leaves the failure out. */
  lemma WalksAgree(rows: History, ordered: History, previous: History, v: Verification, threshold: nat)
    requires multiset(ordered) == multiset(rows) && OldestFirst(ordered) && DistinctIds(ordered)
    requires v in rows && v.kind.Transient? && Before(rows, v, previous)
    ensures 1 + Recent(previous) > threshold <==> v.id !in Environmental(ordered, threshold)
  {
    PermutedSameRows(ordered, rows);
    assert v in ordered;
    var i :| 0 <= i < |ordered| && ordered[i] == v;
    BeforeIsPrefix(rows, ordered, i, previous);
    WalksAgreeAt(ordered, i, previous, threshold);
  }

  // ---------------------------------------------------------------- inconclusive checks

  function Conclusive(h: History): History
  {
    if h == [] then []
    else Conclusive(h[..|h| - 1]) + if h[|h| - 1].kind.Inconclusive? then [] else [h[|h| - 1]]
  }

  lemma {:induction false} InconclusiveIrrelevant(h: History, threshold: nat)
    ensures Streak(Conclusive(h)) == Streak(h)
    ensures Environmental(Conclusive(h), threshold) == Environmental(h, threshold)
  {
    if h != [] {
      var n := |h| - 1;
      InconclusiveIrrelevant(h[..n], threshold);
      if h[n].kind.Inconclusive? {
        assert Conclusive(h) == Conclusive(h[..n]);
      } else {
        assert Conclusive(h)[..|Conclusive(h)| - 1] == Conclusive(h[..n]);
      }
    }
  }

  lemma {:induction false} RecentLast(previous: History, v: Verification)
    ensures Recent(previous + [v])
         == Recent(previous) + if v.kind.Transient? && !HasBreak(previous) then 1 else 0
  {
    if previous == [] {
      assert ([v])[1..] == [];
    } else {
      assert (previous + [v])[1..] == previous[1..] + [v];
      RecentLast(previous[1..], v);
      BreakFirst(previous);
    }
  }

  ghost predicate HasBreak(h: History)
  {
    exists i :: 0 <= i < |h| && Breaks(h[i])
  }

  lemma BreakFirst(h: History)
    requires h != []
    ensures HasBreak(h) <==> Breaks(h[0]) || HasBreak(h[1..])
  {
    if HasBreak(h[1..]) {
      var i :| 0 <= i < |h[1..]| && Breaks(h[1..][i]);
      assert Breaks(h[i + 1]);
    }
    if HasBreak(h) && !Breaks(h[0]) {
      var i :| 0 <= i < |h| && Breaks(h[i]);
      assert h[1..][i - 1] == h[i];
    }
  }

  lemma {:induction false} RecentOfConclusive(previous: History)
    ensures Recent(Conclusive(previous)) == Recent(previous)
    ensures HasBreak(Conclusive(previous)) <==> HasBreak(previous)
  {
    if previous != [] {
      var n := |previous| - 1;
      var rest, v := previous[..n], previous[n];
      RecentOfConclusive(rest);
      assert previous == rest + [v];
      RecentLast(rest, v);
      RecentLast(Conclusive(rest), v);
      BreakLast(rest, v);
      BreakLast(Conclusive(rest), v);
      assert v.kind.Inconclusive? ==> Conclusive(previous) == Conclusive(rest);
    }
  }

  lemma BreakLast(h: History, v: Verification)
    ensures HasBreak(h + [v]) <==> HasBreak(h) || Breaks(v)
  {
    assert (h + [v])[|h|] == v;
    if HasBreak(h) {
      var i :| 0 <= i < |h| && Breaks(h[i]);
      assert (h + [v])[i] == h[i];
    }
  }

  /** Inserting inconclusive rows anywhere changes neither walk's answer: not the oldest-first walk's over `a`
      and `b`, and not the newest-first walk's over them. */
  lemma InconclusiveRowsChangeNothing(a: History, b: History, threshold: nat)
    requires Conclusive(a) == Conclusive(b)
    ensures Streak(a) == Streak(b) && Environmental(a, threshold) == Environmental(b, threshold)
    ensures Recent(a) == Recent(b)
  {
    InconclusiveIrrelevant(a, threshold);
    InconclusiveIrrelevant(b, threshold);
    RecentOfConclusive(a);
    RecentOfConclusive(b);
  }

  // ---------------------------------------------------------------- more history

  lemma {:induction false} OlderRowsLengthen(older: History, h: History)
    ensures Streak(h) <= Streak(older + h)
    ensures (exists i :: 0 <= i < |h| && Breaks(h[i])) ==> Streak(older + h) == Streak(h)
    ensures (forall i :: 0 <= i < |h| ==> !Breaks(h[i])) ==> Streak(older + h) == Streak(older) + Streak(h)
    decreases |h|
  {
    if h == [] {
      assert older + h == older;
    } else {
      var n := |h| - 1;
      OlderRowsLengthen(older, h[..n]);
      assert (older + h)[..|older + h| - 1] == older + h[..n];
      if Breaks(h[n]) {
        assert Streak(older + h) == 0;
      } else {
        assert forall i :: 0 <= i < n ==> h[..n][i] == h[i];
      }
    }
  }

  lemma EnvironmentalAfter(older: History, h: History, threshold: nat, i: nat)
    requires DistinctIds(older + h) && i < |h|
    ensures h[i].id in Environmental(older + h, threshold) <==>
        h[i].kind.Transient? && Streak(older + h[..i + 1]) <= threshold
  {
    assert (older + h)[|older| + i] == h[i];
    EnvironmentalAt(older + h, threshold, |older| + i);
    assert (older + h)[..|older| + i + 1] == older + h[..i + 1];
  }

  /** More history only shrinks the environmental set of a page. */
  lemma OlderRowsShrink(older: History, h: History, threshold: nat, i: nat)
    requires DistinctIds(older + h) && i < |h|
    ensures h[i].id in Environmental(older + h, threshold) ==> h[i].id in Environmental(h, threshold)
  {
    PageIds(older, h);
    EnvironmentalAfter(older, h, threshold, i);
    EnvironmentalAt(h, threshold, i);
    OlderRowsLengthen(older, h[..i + 1]);
  }

  lemma PageIds(older: History, h: History)
    requires DistinctIds(older + h)
    ensures DistinctIds(h)
  {
    assert forall i :: 0 <= i < |h| ==> h[i] == (older + h)[|older| + i];
  }
}

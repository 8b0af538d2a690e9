/** Corroborating one worker's failures by walking pages of its history, newest first. A page is a prefix of
    the history, so a longer page adds older rows at its end. */
module Corroboration {
  import opened FailureStreaks

  const HISTORY_LIMIT_CAP: nat := 1000

  /** The environmental failures of a newest-first page. */
  function Weather(page: History, threshold: nat): set<nat>
  {
    Environmental(Reverse(page), threshold)
  }

  /** walkConsecutiveActionable, given which failures are environmental: corroborated, and decided. */
  function Walk(page: History, weather: set<nat>, since: int, least: nat, counted: nat): (bool, bool)
  {
    if page == [] then (false, false)
    else if page[0].at < since then (false, true)
    else if page[0].kind.Inconclusive? then Walk(page[1..], weather, since, least, counted)
    else if page[0].kind.Passed? || page[0].id in weather then (false, true)
    else if counted + 1 >= least then (true, true)
    else Walk(page[1..], weather, since, least, counted + 1)
  }

  // ---------------------------------------------------------------- what the walk says

  /** The checks that count: those that passed or failed. */
  function Conclusive(rows: History): nat
  {
    if rows == [] then 0 else Conclusive(rows[1..]) + if rows[0].kind.Inconclusive? then 0 else 1
  }

  /** Since the deployment, and no pass and no environmental failure among them. */
  predicate AllFailing(rows: History, weather: set<nat>, since: int)
  {
    forall i :: 0 <= i < |rows| ==>
      && rows[i].at >= since && !rows[i].kind.Passed?
      && (rows[i].kind.Inconclusive? || rows[i].id !in weather)
  }

  /** The newest rows hold this many failures, and nothing before the deployment, no pass and no environmental failure
      comes among them. */
  ghost predicate Streaks(page: History, weather: set<nat>, since: int, failures: nat, n: nat)
  {
    n <= |page| && AllFailing(page[..n], weather, since) && Conclusive(page[..n]) == failures
  }

  /** The row ends the walk with a refusal. */
  predicate Refuses(v: Verification, weather: set<nat>, since: int)
  {
    v.at < since || v.kind.Passed? || (!v.kind.Inconclusive? && v.id in weather)
  }

  lemma FirstRow(page: History, weather: set<nat>, since: int, failures: nat, n: nat)
    requires page != []
    ensures Streaks(page, weather, since, failures, n + 1) <==>
              && !Refuses(page[0], weather, since)
              && (if page[0].kind.Inconclusive? then Streaks(page[1..], weather, since, failures, n)
                  else failures > 0 && Streaks(page[1..], weather, since, failures - 1, n))
  {
    if n + 1 <= |page| {
      var some := page[..n + 1];
      assert some[0] == page[0] && some[1..] == page[1..][..n];
      assert forall i :: 0 <= i < n ==> page[1..][..n][i] == some[i + 1];
      if AllFailing(page[1..][..n], weather, since) && !Refuses(page[0], weather, since) {
        forall i | 0 <= i < |some|
          ensures some[i].at >= since && !some[i].kind.Passed? && (some[i].kind.Inconclusive? || some[i].id !in weather)
        {
          if i > 0 { assert page[1..][..n][i - 1] == some[i]; }
        }
      }
    }
  }

  /** How many failures it takes; none is asked for as if one were. */
  function Wanted(least: nat): nat
  {
    if least == 0 then 1 else least
  }

  lemma {:induction false} WalkFinds(page: History, weather: set<nat>, since: int, least: nat, counted: nat)
    returns (n: nat)
    requires counted < Wanted(least) && Walk(page, weather, since, least, counted).0
    ensures Streaks(page, weather, since, Wanted(least) - counted, n)
    decreases |page|
  {
    var rest: nat := 0;
    if page[0].kind.Inconclusive? {
      rest := WalkFinds(page[1..], weather, since, least, counted);
    } else if counted + 1 < least {
      rest := WalkFinds(page[1..], weather, since, least, counted + 1);
    } else {
      assert page[1..][..0] == [];
    }
    n := rest + 1;
    FirstRow(page, weather, since, Wanted(least) - counted, rest);
  }

  lemma {:induction false} WalkHolds(page: History, weather: set<nat>, since: int, least: nat, counted: nat, n: nat)
    requires counted < Wanted(least) && Streaks(page, weather, since, Wanted(least) - counted, n)
    ensures Walk(page, weather, since, least, counted).0
    decreases |page|
  {
    assert page[..0] == [];
    FirstRow(page, weather, since, Wanted(least) - counted, n - 1);
    if page[0].kind.Inconclusive? {
      WalkHolds(page[1..], weather, since, least, counted, n - 1);
    } else if counted + 1 < least {
      WalkHolds(page[1..], weather, since, least, counted + 1, n - 1);
    }
  }

  /** The walk corroborates exactly when some newest rows, all since the deployment, hold as many failures as are
      wanted, no pass and no environmental failure; inconclusive checks do not count. */
  lemma WalkCorroborates(page: History, weather: set<nat>, since: int, least: nat)
    ensures Walk(page, weather, since, least, 0).0 <==> exists n: nat :: Streaks(page, weather, since, Wanted(least), n)
  {
    if Walk(page, weather, since, least, 0).0 {
      var n := WalkFinds(page, weather, since, least, 0);
    }
    if n: nat :| Streaks(page, weather, since, Wanted(least), n) {
      WalkHolds(page, weather, since, least, 0, n);
    }
  }

  /** Too few failures, and then a row that ends the walk. */
  ghost predicate StopsShort(page: History, weather: set<nat>, since: int, failures: nat, wanted: nat, n: nat)
  {
    n < |page| && Refuses(page[n], weather, since) && failures < wanted && Streaks(page, weather, since, failures, n)
  }

  lemma {:induction false} WalkStops(page: History, weather: set<nat>, since: int, least: nat, counted: nat)
    returns (failures: nat, n: nat)
    requires counted < Wanted(least) && Walk(page, weather, since, least, counted) == (false, true)
    ensures StopsShort(page, weather, since, failures, Wanted(least) - counted, n)
    decreases |page|
  {
    if Refuses(page[0], weather, since) {
      failures, n := 0, 0;
      assert page[..0] == [];
    } else {
      var one := if page[0].kind.Inconclusive? then 0 else 1;
      var f, m := WalkStops(page[1..], weather, since, least, counted + one);
      failures, n := f + one, m + 1;
      FirstRow(page, weather, since, failures, m);
    }
  }

  lemma {:induction false} WalkStopped(page: History, weather: set<nat>, since: int, least: nat, counted: nat,
                                       failures: nat, n: nat)
    requires counted < Wanted(least) && StopsShort(page, weather, since, failures, Wanted(least) - counted, n)
    ensures Walk(page, weather, since, least, counted) == (false, true)
    decreases |page|
  {
    if n > 0 {
      FirstRow(page, weather, since, failures, n - 1);
      var one := if page[0].kind.Inconclusive? then 0 else 1;
      WalkStopped(page[1..], weather, since, least, counted + one, failures - one, n - 1);
    }
  }

  /** It refuses for good exactly when a row from before the deployment, a pass or an environmental failure comes
      after too few failures; on any other page it is open. */
  lemma WalkRefuses(page: History, weather: set<nat>, since: int, least: nat)
    ensures Walk(page, weather, since, least, 0) == (false, true)
            <==> exists failures: nat, n: nat :: StopsShort(page, weather, since, failures, Wanted(least), n)
  {
    if Walk(page, weather, since, least, 0) == (false, true) {
      var failures, n := WalkStops(page, weather, since, least, 0);
    }
    if failures: nat, n: nat :| StopsShort(page, weather, since, failures, Wanted(least), n) {
      WalkStopped(page, weather, since, least, 0, failures, n);
    }
  }

  function Verdict(page: History, threshold: nat, since: int, least: nat): (bool, bool)
  {
    Walk(page, Weather(page, threshold), since, least, 0)
  }

  /** Checks with one start time may be sorted either way; the verdict follows the order they got. */
  method WalkConsecutiveActionable(page: History, threshold: nat, since: int, least: nat)
    returns (corroborated: bool, decided: bool, ghost ordered: History)
    ensures multiset(ordered) == multiset(page) && Sorted(ordered)
    ensures (corroborated, decided) == Walk(page, Environmental(ordered, threshold), since, least, 0)
    ensures NewestFirst(page) ==> (corroborated, decided) == Verdict(page, threshold, since, least)
  {
    var environmental, sorted := EnvironmentalVerificationIDs(page, threshold);
    ordered := sorted;
    if NewestFirst(page) {
      PermutedSameRows(page, ordered);
      OneOrder(ordered, page);
    }
    var consecutive := 0;
    var i := 0;
    while i < |page|
      invariant 0 <= i <= |page|
      invariant Walk(page, environmental, since, least, 0) == Walk(page[i..], environmental, since, least, consecutive)
    {
      var v := page[i];
      if v.at < since { return false, true, ordered; }
      if !v.kind.Inconclusive? {
        if v.kind.Passed? || v.id in environmental { return false, true, ordered; }
        consecutive := consecutive + 1;
        if consecutive >= least { return true, true, ordered; }
      }
      i := i + 1;
    }
    return false, false, ordered;
  }

  /** Rows with distinct times have only one order. */
  lemma {:induction false} OneOrder(ordered: History, page: History)
    requires OldestFirst(ordered) && NewestFirst(page) && SameRows(page, ordered)
    ensures ordered == Reverse(page)
    decreases |ordered|
  {
    assert |page| > 0 ==> page[0] in page;
    if ordered != [] {
      SameNewest(ordered, page);
      SameRest(ordered, page);
      OneOrder(ordered[..|ordered| - 1], page[1..]);
    }
  }

  // ---------------------------------------------------------------- a longer page

  lemma {:induction false} ReverseConcat(a: History, b: History)
    ensures Reverse(a + b) == Reverse(b) + Reverse(a)
    decreases |b|
  {
    if b == [] {
      assert a + b == a;
    } else {
      var n := |b| - 1;
      assert (a + b)[..|a + b| - 1] == a + b[..n];
      ReverseConcat(a, b[..n]);
    }
  }

  lemma ReverseDistinct(h: History)
    requires DistinctIds(h)
    ensures DistinctIds(Reverse(h))
  {
  }

  /** Fewer environmental failures among these rows can only help the walk. */
  ghost predicate Fewer(page: History, a: set<nat>, b: set<nat>)
  {
    forall i :: 0 <= i < |page| && page[i].id in a ==> page[i].id in b
  }

  lemma {:induction false} WalkHelped(page: History, older: History, weather: set<nat>, less: set<nat>, since: int,
                                      least: nat, counted: nat)
    requires Fewer(page, less, weather) && Walk(page, weather, since, least, counted).0
    ensures Walk(page + older, less, since, least, counted).0
    decreases |page|
  {
    if page != [] {
      assert (page + older)[1..] == page[1..] + older;
      if page[0].kind.Inconclusive? {
        WalkHelped(page[1..], older, weather, less, since, least, counted);
      } else if counted + 1 < least {
        WalkHelped(page[1..], older, weather, less, since, least, counted + 1);
      }
    }
  }

  lemma OlderWeather(page: History, older: History, threshold: nat)
    requires DistinctIds(page + older)
    ensures Fewer(page, Weather(page + older, threshold), Weather(page, threshold))
  {
    ReverseConcat(page, older);
    ReverseDistinct(page + older);
    forall i | 0 <= i < |page| && page[i].id in Weather(page + older, threshold)
      ensures page[i].id in Weather(page, threshold)
    {
      OlderRowsShrink(Reverse(older), Reverse(page), threshold, |page| - 1 - i);
    }
  }

  /** A corroborated verdict stands on every longer page. */
  lemma CorroboratedStays(page: History, older: History, threshold: nat, since: int, least: nat)
    requires DistinctIds(page + older) && Verdict(page, threshold, since, least).0
    ensures Verdict(page + older, threshold, since, least).0
  {
    OlderWeather(page, older, threshold);
    WalkHelped(page, older, Weather(page, threshold), Weather(page + older, threshold), since, least, 0);
  }

  // ---------------------------------------------------------------- growing the page

  function Page(history: History, limit: nat): History
  {
    if limit <= |history| then history[..limit] else history
  }

  /** The limits tried: four times as many rows each time, up to the cap. */
  function NextLimit(limit: nat): (next: nat)
    ensures 0 < limit < HISTORY_LIMIT_CAP ==> limit < next <= HISTORY_LIMIT_CAP
  {
    if limit * 4 < HISTORY_LIMIT_CAP then limit * 4 else HISTORY_LIMIT_CAP
  }

  /** The limit of each try: four times the one before, but a thousand at the most. */
  function LimitAt(first: nat, tries: nat): nat
  {
    if tries == 0 then first
    else var four := 4 * LimitAt(first, tries - 1); if four <= 1000 then four else 1000
  }

  /** No page up to this limit corroborates, and there is a reason to stop here. */
  ghost predicate Refused(history: History, threshold: nat, since: int, least: nat, limit: nat)
  {
    && !Verdict(Page(history, limit), threshold, since, least).0
    && (Verdict(Page(history, limit), threshold, since, least).1 || |history| < limit || limit >= 1000)
  }

  /** The page's checks, sorted oldest first; those with one start time may come either way. */
  ghost predicate Sorting(page: History, ordered: History)
  {
    multiset(ordered) == multiset(page) && Sorted(ordered)
  }

  /** The walk over this page corroborates, for the order its checks were sorted into. */
  ghost predicate Corroborates(history: History, threshold: nat, since: int, least: nat, limit: nat, ordered: History)
  {
    && Sorting(Page(history, limit), ordered)
    && Walk(Page(history, limit), Environmental(ordered, threshold), since, least, 0).0
  }

  /** It does not, and the page decides, has all the rows there are, or is at the cap. */
  ghost predicate Stops(history: History, threshold: nat, since: int, least: nat, limit: nat, ordered: History)
  {
    var (corroborated, decided) := Walk(Page(history, limit), Environmental(ordered, threshold), since, least, 0);
    && Sorting(Page(history, limit), ordered)
    && !corroborated && (decided || |history| < limit || limit >= 1000)
  }

  /** It neither corroborates nor stops here: a full page that leaves the streak open. */
  ghost predicate Open(history: History, threshold: nat, since: int, least: nat, limit: nat, ordered: History)
  {
    && Sorting(Page(history, limit), ordered) && limit <= |history| && limit < 1000
    && Walk(Page(history, limit), Environmental(ordered, threshold), since, least, 0) == (false, false)
  }

  /** The limit of a try for so many failures: five times as many rows and ten more to begin with. */
  function TryLimit(least: nat, tries: nat): nat
  {
    LimitAt(5 * least + 10, tries)
  }

  ghost predicate OpenAt(history: History, threshold: nat, since: int, least: nat, j: nat)
  {
    exists ordered :: Open(history, threshold, since, least, TryLimit(least, j), ordered)
  }

  /** All tries before this one were open. */
  ghost predicate Reaches(history: History, threshold: nat, since: int, least: nat, tries: nat)
  {
    forall j: nat :: j < tries ==> OpenAt(history, threshold, since, least, j)
  }

  ghost predicate GivenUpAt(history: History, threshold: nat, since: int, least: nat, tries: nat, ordered: History)
  {
    && Reaches(history, threshold, since, least, tries)
    && Stops(history, threshold, since, least, TryLimit(least, tries), ordered)
    && (NewestFirst(history) ==> Refused(history, threshold, since, least, TryLimit(least, tries)))
  }

  ghost predicate GivenUp(history: History, threshold: nat, since: int, least: nat)
  {
    exists tries: nat, ordered :: GivenUpAt(history, threshold, since, least, tries, ordered)
  }

  lemma PageRest(history: History, limit: nat)
    ensures NewestFirst(history) ==> NewestFirst(Page(history, limit))
    ensures exists older :: history == Page(history, limit) + older
  {
    var older := history[|Page(history, limit)|..];
    assert history == Page(history, limit) + older;
  }

  /** One try: the page, the walk over it, and whether to go on. */
  method TryPage(history: History, threshold: nat, since: int, least: nat, limit: nat)
    returns (corroborated: bool, stop: bool, ghost ordered: History)
    requires DistinctIds(history)
    ensures corroborated ==> Corroborates(history, threshold, since, least, limit, ordered)
    ensures corroborated && NewestFirst(history) ==> Verdict(history, threshold, since, least).0
    ensures !corroborated && stop ==> Stops(history, threshold, since, least, limit, ordered)
    ensures !corroborated && stop && NewestFirst(history) ==> Refused(history, threshold, since, least, limit)
    ensures !corroborated && !stop ==> Open(history, threshold, since, least, limit, ordered)
  {
    var page := Page(history, limit);
    PageRest(history, limit);
    var verdict, decided, sorted := WalkConsecutiveActionable(page, threshold, since, least);
    if verdict && NewestFirst(history) {
      ghost var older :| history == page + older;
      CorroboratedStays(page, older, threshold, since, least);
    }
    return verdict, decided || |page| < limit || limit >= HISTORY_LIMIT_CAP, sorted;
  }

  /** One worker of singleWorkerFailureCorroborated: pages grow until the walk corroborates, decides, runs out
      of rows or reaches the cap. */
  method WorkerCorroborated(history: History, threshold: nat, since: int, least: nat)
    returns (corroborated: bool, ghost tries: nat, ghost ordered: History)
    requires DistinctIds(history)
    ensures Reaches(history, threshold, since, least, tries)
    ensures corroborated ==> Corroborates(history, threshold, since, least, TryLimit(least, tries), ordered)
    ensures corroborated && NewestFirst(history) ==> Verdict(history, threshold, since, least).0
    ensures !corroborated ==> GivenUpAt(history, threshold, since, least, tries, ordered)
    ensures !corroborated ==> GivenUp(history, threshold, since, least)
  {
    var limit := least * 5 + 10;
    tries := 0;
    while true
      invariant 0 < limit == TryLimit(least, tries) && Reaches(history, threshold, since, least, tries)
      decreases HISTORY_LIMIT_CAP - limit
    {
      var verdict, stop, sorted := TryPage(history, threshold, since, least, limit);
      if verdict { return true, tries, sorted; }
      if stop {
        assert GivenUpAt(history, threshold, since, least, tries, sorted);
        return false, tries, sorted;
      }
      assert OpenAt(history, threshold, since, least, tries);
      limit := NextLimit(limit);
      tries := tries + 1;
    }
  }

  /** singleWorkerFailureCorroborated: a positive answer names a worker one of whose pages corroborates, and whose
      whole history does when its start times are distinct; a negative one gave up on every worker. */
  method SingleWorkerFailureCorroborated(histories: seq<History>, threshold: nat, since: int, least: nat)
    returns (corroborated: bool, ghost worker: nat, ghost tries: nat, ghost ordered: History)
    requires forall i :: 0 <= i < |histories| ==> DistinctIds(histories[i])
    ensures corroborated ==> worker < |histories| && Reaches(histories[worker], threshold, since, least, tries)
    ensures corroborated ==>
              Corroborates(histories[worker], threshold, since, least, TryLimit(least, tries), ordered)
    ensures corroborated && NewestFirst(histories[worker]) ==> Verdict(histories[worker], threshold, since, least).0
    ensures corroborated ==> forall i :: 0 <= i < worker ==> GivenUp(histories[i], threshold, since, least)
    ensures !corroborated ==> forall i :: 0 <= i < |histories| ==> GivenUp(histories[i], threshold, since, least)
  {
    for i := 0 to |histories|
      invariant forall j :: 0 <= j < i ==> GivenUp(histories[j], threshold, since, least)
    {
      var verdict, count, sorted := WorkerCorroborated(histories[i], threshold, since, least);
      if verdict { return true, i, count, sorted; }
    }
    return false, 0, 0, [];
  }

  predicate AnyConclusive(h: History)
  {
    exists i :: 0 <= i < |h| && !h[i].kind.Inconclusive?
  }

  /** Newest first, checks with one start time in any order. */
  predicate Descending(h: History)
  {
    forall i, j :: 0 <= i < j < |h| ==> h[i].at >= h[j].at
  }

  /** A full page of inconclusive checks, all since the deployment, below a thousand rows. */
  predicate Unsettled(history: History, since: int, limit: nat)
  {
    && 0 < limit <= |history| && limit < 1000
    && !AnyConclusive(history[..limit]) && history[limit - 1].at >= since
  }

  function FourTimes(initial: nat, tries: nat): nat
  {
    if tries == 0 then initial else 4 * FourTimes(initial, tries - 1)
  }

  /** pauseEvidenceHistory: inconclusive rows cannot hide a verdict. The first page that is not unsettled is returned,
      and if the newest conclusive check since the deployment is among the first thousand rows, the page has it. */
  method PauseEvidenceHistory(history: History, since: int, initial: nat) returns (page: History, ghost tries: nat)
    requires Descending(history) && initial > 0
    ensures page == Page(history, FourTimes(initial, tries)) && !Unsettled(history, since, FourTimes(initial, tries))
    ensures forall j: nat :: j < tries ==> Unsettled(history, since, FourTimes(initial, j))
    ensures forall n ::
        |page| <= n < |history| && n < 1000 && history[n].at >= since && !history[n].kind.Inconclusive? ==>
          AnyConclusive(page)
  {
    var rows := initial;
    tries := 0;
    while true
      invariant 0 < rows == FourTimes(initial, tries)
      invariant forall j: nat :: j < tries ==> Unsettled(history, since, FourTimes(initial, j))
      decreases HISTORY_LIMIT_CAP - rows
    {
      page := Page(history, rows);
      if |page| < rows || rows >= HISTORY_LIMIT_CAP { return; }
      if AnyConclusive(page) { return; }
      if page[|page| - 1].at < since { return; }
      rows := rows * 4;
      tries := tries + 1;
    }
  }

  // ---------------------------------------------------------------- when a negative verdict can change

  /** The failures, oldest first, that no older history can escalate: a row of the page ends their streak. */
  ghost function Settled(h: History, threshold: nat): set<nat>
  {
    if h == [] then {}
    else
      var n := |h| - 1;
      Settled(h[..n], threshold) +
      if h[n].kind.Transient? && Streak(h) <= threshold && HasBreak(h[..n]) then {h[n].id} else {}
  }

  lemma {:induction false} SettledAt(h: History, threshold: nat, i: nat)
    requires DistinctIds(h) && i < |h|
    ensures h[i].id in Settled(h, threshold) <==>
        h[i].kind.Transient? && Streak(h[..i + 1]) <= threshold && HasBreak(h[..i])
    decreases |h|
  {
    var n := |h| - 1;
    if i == n {
      assert h[..i + 1] == h;
      NotSettled(h[..n], threshold, h[n].id);
    } else {
      SettledAt(h[..n], threshold, i);
      assert h[..n][..i + 1] == h[..i + 1] && h[..n][..i] == h[..i];
    }
  }

  lemma {:induction false} NotSettled(h: History, threshold: nat, id: nat)
    requires forall i :: 0 <= i < |h| ==> h[i].id != id
    ensures id !in Settled(h, threshold)
  {
    if h != [] { NotSettled(h[..|h| - 1], threshold, id); }
  }

  lemma SettledStreak(older: History, h: History, threshold: nat, i: nat)
    requires i < |h| && h[i].kind.Transient?
    ensures Streak(h[..i + 1]) <= threshold && HasBreak(h[..i]) ==> Streak(older + h[..i + 1]) <= threshold
    ensures Streak(older) >= threshold && Streak(older + h[..i + 1]) <= threshold ==>
        Streak(h[..i + 1]) <= threshold && HasBreak(h[..i])
  {
    OlderRowsLengthen(older, h[..i + 1]);
    BreakBefore(h, i);
  }

  /** Settled failures stay environmental whatever comes before them; after enough transient failures no
      other does. */
  lemma SettledStays(older: History, h: History, threshold: nat, i: nat)
    requires DistinctIds(older + h) && i < |h|
    ensures h[i].id in Settled(h, threshold) ==> h[i].id in Environmental(older + h, threshold)
    ensures Streak(older) >= threshold && h[i].id in Environmental(older + h, threshold) ==>
        h[i].id in Settled(h, threshold)
  {
    PageIds(older, h);
    EnvironmentalAfter(older, h, threshold, i);
    SettledAt(h, threshold, i);
    if h[i].kind.Transient? { SettledStreak(older, h, threshold, i); }
  }

  lemma BreakBefore(h: History, i: nat)
    requires i < |h| && h[i].kind.Transient?
    ensures HasBreak(h[..i + 1]) <==> HasBreak(h[..i])
    ensures Streak(h[..i + 1]) > 0
  {
    assert h[..i + 1][..i] == h[..i];
    if HasBreak(h[..i]) {
      var k :| 0 <= k < |h[..i]| && Breaks(h[..i][k]);
      assert h[..i + 1][k] == h[..i][k];
    }
    if HasBreak(h[..i + 1]) {
      var k :| 0 <= k < |h[..i + 1]| && Breaks(h[..i + 1][k]);
      assert h[..i][k] == h[..i + 1][k];
    }
  }

  ghost function Firm(page: History, threshold: nat): set<nat>
  {
    Settled(Reverse(page), threshold)
  }

  lemma FirmAt(page: History, older: History, threshold: nat, i: nat)
    requires DistinctIds(page + older) && i < |page|
    ensures page[i].id in Firm(page, threshold) ==> page[i].id in Weather(page + older, threshold)
    ensures Streak(Reverse(older)) >= threshold && page[i].id in Weather(page + older, threshold) ==>
        page[i].id in Firm(page, threshold)
  {
    ReverseConcat(page, older);
    ReverseDistinct(page + older);
    SettledStays(Reverse(older), Reverse(page), threshold, |page| - 1 - i);
  }

  lemma FirmWeather(page: History, older: History, threshold: nat)
    requires DistinctIds(page + older)
    ensures Fewer(page, Firm(page, threshold), Weather(page + older, threshold))
    ensures Streak(Reverse(older)) >= threshold ==> Fewer(page, Weather(page + older, threshold), Firm(page, threshold))
  {
    var firm, weather := Firm(page, threshold), Weather(page + older, threshold);
    forall i | 0 <= i < |page|
      ensures page[i].id in firm ==> page[i].id in weather
      ensures Streak(Reverse(older)) >= threshold && page[i].id in weather ==> page[i].id in firm
    {
      FirmAt(page, older, threshold, i);
    }
  }

  /** Rows older than the page and than the deployment. */
  ghost predicate Prehistory(page: History, older: History, since: int)
  {
    Descending(page + older) && DistinctIds(page + older) && forall i :: 0 <= i < |older| ==> older[i].at < since
  }

  lemma {:induction false} WalkStopsAtStart(page: History, older: History, weather: set<nat>, firm: set<nat>,
                                            since: int, least: nat, counted: nat)
    requires Fewer(page, firm, weather) && forall i :: 0 <= i < |older| ==> older[i].at < since
    requires Walk(page + older, weather, since, least, counted).0
    ensures Walk(page, firm, since, least, counted).0
    decreases |page|
  {
    assert page == [] ==> page + older == older;
    if page != [] {
      assert (page + older)[1..] == page[1..] + older;
      if page[0].kind.Inconclusive? {
        WalkStopsAtStart(page[1..], older, weather, firm, since, least, counted);
      } else if counted + 1 < least {
        WalkStopsAtStart(page[1..], older, weather, firm, since, least, counted + 1);
      }
    }
  }

  /** Enough transient failures before everything. */
  function Storm(page: History, threshold: nat, since: int): (older: History)
    ensures |older| == threshold
    ensures forall i :: 0 <= i < |older| ==>
        older[i] == Verification(Above(page) + i, Below(page, since) - 1 - i, Transient)
  {
    seq(threshold,
        i requires 0 <= i < threshold => Verification(Above(page) + i, Below(page, since) - 1 - i, Transient))
  }

  function Above(page: History): (bound: nat)
    ensures forall i :: 0 <= i < |page| ==> page[i].id < bound
  {
    if page == [] then 0
    else var rest := Above(page[..|page| - 1]); if page[|page| - 1].id >= rest then page[|page| - 1].id + 1 else rest
  }

  function Below(page: History, since: int): (bound: int)
    ensures bound <= since && forall i :: 0 <= i < |page| ==> bound <= page[i].at
  {
    if page == [] then since
    else var rest := Below(page[..|page| - 1], since); if page[|page| - 1].at < rest then page[|page| - 1].at else rest
  }

  lemma {:induction false} AllTransient(h: History)
    requires forall i :: 0 <= i < |h| ==> h[i].kind.Transient?
    ensures Streak(h) == |h|
  {
    if h != [] { AllTransient(h[..|h| - 1]); }
  }

  lemma StormIsPrehistory(page: History, threshold: nat, since: int)
    requires Descending(page) && DistinctIds(page)
    ensures Prehistory(page, Storm(page, threshold, since), since)
    ensures Streak(Reverse(Storm(page, threshold, since))) == threshold
  {
    AllTransient(Reverse(Storm(page, threshold, since)));
  }

  /** Exactly when checks from before the deployment can turn a verdict around: when the walk corroborates once
      every failure whose streak no row of the page ends is counted. So a decided negative verdict need not be
      final. */
  lemma OlderChecksCorroborateExactlyWhen(page: History, threshold: nat, since: int, least: nat)
    requires Descending(page) && DistinctIds(page)
    ensures (exists older :: Prehistory(page, older, since) && Verdict(page + older, threshold, since, least).0)
            <==> Walk(page, Firm(page, threshold), since, least, 0).0
  {
    if older :| Prehistory(page, older, since) && Verdict(page + older, threshold, since, least).0 {
      FirmWeather(page, older, threshold);
      WalkStopsAtStart(page, older, Weather(page + older, threshold), Firm(page, threshold), since, least, 0);
    }
    if Walk(page, Firm(page, threshold), since, least, 0).0 {
      var storm := Storm(page, threshold, since);
      StormIsPrehistory(page, threshold, since);
      FirmWeather(page, storm, threshold);
      WalkHelped(page, storm, Firm(page, threshold), Weather(page + storm, threshold), since, least, 0);
    }
  }

  /** One transient failure, a threshold of two and one failure asked for: the verdict is negative and decided, and
      two transient failures from before the deployment turn it around. */
  lemma DecidedVerdictTurnedAround(page: History, older: History)
    requires page == [Verification(1, 10, Transient)]
    requires older == [Verification(2, 4, Transient), Verification(3, 3, Transient)]
    ensures Prehistory(page, older, 5)
    ensures Verdict(page, 2, 5, 1) == (false, true) && Verdict(page + older, 2, 5, 1) == (true, true)
  {
    LoneFailure(page, 2);
    LoneFailure(page + older, 2);
  }

  /** The newest of some transient failures is environmental exactly while they are within the threshold. */
  lemma LoneFailure(page: History, threshold: nat)
    requires page != [] && DistinctIds(page) && forall i :: 0 <= i < |page| ==> page[i].kind.Transient?
    ensures page[0].id in Weather(page, threshold) <==> |page| <= threshold
  {
    var h := Reverse(page);
    ReverseDistinct(page);
    EnvironmentalAt(h, threshold, |h| - 1);
    assert h[..|h|] == h;
    AllTransient(h);
  }

  /** A negative verdict that rests on settled failures only is final: no older rows change it. */
  lemma {:induction false} FirmRefusalIsFinal(page: History, older: History, weather: set<nat>, firm: set<nat>,
                                              since: int, least: nat, counted: nat)
    requires Fewer(page, firm, weather) && Walk(page, firm, since, least, counted) == (false, true)
    ensures !Walk(page + older, weather, since, least, counted).0
    decreases |page|
  {
    if page != [] && page[0].at >= since {
      assert (page + older)[1..] == page[1..] + older;
      if page[0].kind.Inconclusive? {
        FirmRefusalIsFinal(page[1..], older, weather, firm, since, least, counted);
      } else if !page[0].kind.Passed? && page[0].id !in firm {
        FirmRefusalIsFinal(page[1..], older, weather, firm, since, least, counted + 1);
      }
    }
  }

  lemma SettledRefusalStays(page: History, older: History, threshold: nat, since: int, least: nat)
    requires DistinctIds(page + older) && Walk(page, Firm(page, threshold), since, least, 0) == (false, true)
    ensures !Verdict(page + older, threshold, since, least).0
  {
    FirmWeather(page, older, threshold);
    FirmRefusalIsFinal(page, older, Weather(page + older, threshold), Firm(page, threshold), since, least, 0);
  }
}

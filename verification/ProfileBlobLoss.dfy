/** When the collector can lose a blob: a cache entry made without the lock, and a re-fired journal copy, lead to a
    row that does not expand exactly when their guards fail. Losing runs use only what the code does: holders finish,
    in-window reports no older than an event overwrite its details, the sweep goes on. */
module ProfileBlobLoss {
  import opened Basics
  import opened ProfileSnapshot
  import opened ProfileBlobStore
  import opened ProfileBlobSweep

  /** Some run of allowed steps ends in a row that does not expand to its content. */
  ghost predicate CanLose(s: State)
  {
    exists steps, t :: Leads(SCAN_ORDER, true, s, steps, t) && !RowsIntact(t)
  }

  lemma Then(s: State, step: Step)
    requires Allowed(SCAN_ORDER, s, step) && CanLose(Apply(SCAN_ORDER, s, step))
    ensures CanLose(s)
  {
    var rest, t :| Leads(SCAN_ORDER, true, Apply(SCAN_ORDER, s, step), rest, t) && !RowsIntact(t);
    assert ([step] + rest)[1..] == rest;
    assert Leads(SCAN_ORDER, true, s, [step] + rest, t);
  }

  lemma Now(s: State)
    requires !RowsIntact(s)
    ensures CanLose(s)
  {
    assert Leads(SCAN_ORDER, true, s, [], s);
  }

  lemma InvNeverLoses(s: State)
    requires Inv(SCAN_ORDER, s)
    ensures !CanLose(s)
  {
    ScanOrderIsGood();
    forall steps, t | Leads(SCAN_ORDER, true, s, steps, t)
      ensures RowsIntact(t)
    {
      RunKeepsInv(SCAN_ORDER, s, steps, t);
    }
  }

  lemma MissingIsLost(s: State, key: RowKey, id: Id)
    requires key in s.rows && id in RefIds(s.rows[key].stored) && id !in s.blobs
    ensures CanLose(s)
  {
    if Expand(s.blobs, s.rows[key].stored).Ok? { ExpandRefsLive(s.blobs, s.rows[key].stored); }
    Now(s);
  }

  // ---------------------------------------------------------------- an unsafe reference behind the scan

  /** A journal row the scan has passed refers to a blob that the running sweep will delete. */
  ghost predicate Exposed(s: State, key: RowKey, id: Id)
  {
    && key in s.rows && key.column == Journal && id in RefIds(s.rows[key].stored)
    && id in s.blobs && id !in Marked(s) && id !in s.pinned && !Owed(s, id)
    && match s.sweep
       case Idle => false
       case Scanning(done, _, maxId) => 3 <= done <= 4 && id <= maxId
       case Deleting(_, _, rest, _) => id in rest
  }

  /** The batches reach it. */
  lemma {:induction false} Batched(s: State, key: RowKey, id: Id)
    requires Exposed(s, key, id) && s.sweep.Deleting? && s.holders == map[]
    ensures CanLose(s)
    decreases if s.sweep.Deleting? then |s.sweep.rest| else 0
  {
    var n := Apply(SCAN_ORDER, s, DeleteSome);
    var batch := Batch(s.sweep.rest);
    assert s.sweep.rest == batch + n.sweep.rest;
    if id in batch {
      MissingIsLost(n, key, id);
    } else {
      assert forall i :: !Owed(n, i);
      Batched(n, key, id);
    }
    Then(s, DeleteSome);
  }

  lemma {:induction false} Listed(ids: set<Id>) returns (list: seq<Id>)
    ensures forall id :: id in list <==> id in ids
  {
    if ids == {} {
      list := [];
    } else {
      var id :| id in ids;
      var rest := Listed(ids - {id});
      list := [id] + rest;
    }
  }

  lemma Candidate(s: State, key: RowKey, id: Id)
    requires Exposed(s, key, id) && s.sweep.Scanning? && s.sweep.done == 4 && s.holders == map[]
    ensures CanLose(s)
  {
    var rest := Listed(set i | i in s.blobs && i <= s.sweep.maxId && i !in s.sweep.marked);
    var step := ListCandidates(rest);
    assert Enabled(SCAN_ORDER, s, step);
    Batched(Apply(SCAN_ORDER, s, step), key, id);
    Then(s, step);
  }

  /** The events that still refer to something. */
  ghost function Referring(s: State): set<RowKey>
  {
    set key | key in s.rows && key.column == Events && RefIds(s.rows[key].stored) != {}
  }

  lemma LastColumn(s: State, key: RowKey, id: Id)
    requires Exposed(s, key, id) && s.sweep.Scanning? && s.sweep.done == 3 && s.holders == map[] && Referring(s) == {}
    ensures CanLose(s)
  {
    assert SCAN_ORDER[3] == Events;
    assert Marks(s, Events) == {} by {
      forall k | k in s.rows && k.column == Events ensures RefIds(s.rows[k].stored) == {} { assert k !in Referring(s); }
    }
    var n := Apply(SCAN_ORDER, s, ScanColumn);
    assert n == s.(sweep := Scanning(4, s.sweep.marked + {}, s.sweep.maxId));
    assert !Owed(n, id);
    Candidate(n, key, id);
    Then(s, ScanColumn);
  }

  ghost function Above(keys: set<RowKey>): (bound: nat)
    ensures forall key :: key in keys ==> key.n < bound
  {
    if keys == {} then 0
    else
      var key :| key in keys;
      var rest := Above(keys - {key});
      assert forall other :: other in keys && other != key ==> other in keys - {key};
      if key.n >= rest then key.n + 1 else rest
  }

  lemma NothingCompacted(known: Blobs)
    ensures IsCompaction(map[], map[], known) && RefIds(map[]) == {}
  {
  }

  /** In-window reports overwrite the events' details, and with them their references. */
  lemma {:induction false} Overwritten(s: State, key: RowKey, id: Id, h: nat)
    requires Exposed(s, key, id) && s.sweep.Scanning? && s.sweep.done == 3
    requires h in s.holders && s.holders == map[h := s.holders[h]] && s.holders[h].owed == map[]
    ensures CanLose(s)
    decreases |Referring(s)|
  {
    if Referring(s) == {} {
      var n := Apply(SCAN_ORDER, s, Release(h));
      assert n.holders == map[] && !Owed(n, id) && Referring(n) == {};
      LastColumn(n, key, id);
      Then(s, Release(h));
    } else {
      var e :| e in Referring(s);
      var j := Above(s.rows.Keys);
      NothingCompacted(s.holders[h].kept);
      assert e == RowKey(Events, e.n);
      var step := RecordEvent(h, e.n, s.rows[e].at, map[], map[], j);
      assert Enabled(SCAN_ORDER, s, step);
      var n := Apply(SCAN_ORDER, s, step);
      OverwroteOne(s, n, key, id, h, e, j);
      Overwritten(n, key, id, h);
      Then(s, step);
    }
  }

  lemma OverwroteOne(s: State, n: State, key: RowKey, id: Id, h: nat, e: RowKey, j: nat)
    requires Exposed(s, key, id) && e in Referring(s) && RowKey(Journal, j) !in s.rows
    requires n == Recorded(s, e.n, Row(map[], Strip(map[]), e.n, s.rows[e].at), j)
    ensures Exposed(n, key, id) && Referring(n) == Referring(s) - {e} && |Referring(n)| < |Referring(s)|
  {
    NothingCompacted(map[]);
    assert e == RowKey(Events, e.n);
    assert n.rows[key] == s.rows[key];
    assert !Owed(n, id);
    forall k ensures k in Referring(n) <==> k in Referring(s) - {e} {
      if k in n.rows && k.column == Events && k != e { assert n.rows[k] == s.rows[k]; }
    }
    assert Referring(n) == Referring(s) - {e};
  }

  lemma NoHolders(s: State, key: RowKey, id: Id)
    requires Exposed(s, key, id) && s.holders == map[]
    ensures CanLose(s)
  {
    if s.sweep.Deleting? {
      Batched(s, key, id);
    } else if s.sweep.done == 4 {
      Candidate(s, key, id);
    } else {
      var n := Apply(SCAN_ORDER, s, Acquire(0));
      assert !Owed(n, id);
      Overwritten(n, key, id, 0);
      Then(s, Acquire(0));
    }
  }

  lemma PinnedOne(s: State, n: State, key: RowKey, id: Id, h: nat, x: Id)
    requires Exposed(s, key, id) && h in s.holders && x in s.holders[h].owed && n == Apply(SCAN_ORDER, s, Pin(h, x))
    ensures Exposed(n, key, id) && n.holders.Keys == s.holders.Keys && |n.holders[h].owed| < |s.holders[h].owed|
  {
    assert x != id by { assert Owed(s, x); }
    assert !Owed(n, id) by {
      forall g | g in n.holders ensures id !in n.holders[g].owed { assert id !in s.holders[g].owed; }
    }
    assert n.holders[h].owed == s.holders[h].owed - {x};
    assert n.holders[h].owed.Keys == s.holders[h].owed.Keys - {x};
  }

  lemma ReleasedOne(s: State, n: State, key: RowKey, id: Id, h: nat)
    requires Exposed(s, key, id) && h in s.holders && s.holders[h].owed == map[]
    requires n == Apply(SCAN_ORDER, s, Release(h))
    ensures Exposed(n, key, id) && n.holders.Keys == s.holders.Keys - {h} && |n.holders| < |s.holders|
  {
    assert !Owed(n, id) by {
      forall g | g in n.holders ensures id !in n.holders[g].owed { assert id !in s.holders[g].owed; }
    }
    assert n.holders.Keys == s.holders.Keys - {h};
  }

  /** The holders pin what they owe and leave; none of them owes this blob. */
  lemma {:induction false} HoldersLeave(s: State, key: RowKey, id: Id, h: nat)
    requires Exposed(s, key, id) && h in s.holders
    ensures CanLose(s)
    decreases |s.holders|, if h in s.holders then |s.holders[h].owed| else 0
  {
    if s.holders[h].owed == map[] {
      var n := Apply(SCAN_ORDER, s, Release(h));
      ReleasedOne(s, n, key, id, h);
      if n.holders == map[] {
        NoHolders(n, key, id);
      } else {
        var g :| g in n.holders;
        HoldersLeave(n, key, id, g);
      }
      Then(s, Release(h));
    } else {
      var x :| x in s.holders[h].owed;
      var n := Apply(SCAN_ORDER, s, Pin(h, x));
      PinnedOne(s, n, key, id, h, x);
      assert |n.holders| == |n.holders.Keys| == |s.holders.Keys| == |s.holders|;
      HoldersLeave(n, key, id, h);
      Then(s, Pin(h, x));
    }
  }

  lemma ExposedIsLost(s: State, key: RowKey, id: Id)
    requires Exposed(s, key, id)
    ensures CanLose(s)
  {
    if s.holders == map[] {
      NoHolders(s, key, id);
    } else {
      var h :| h in s.holders;
      HoldersLeave(s, key, id, h);
    }
  }

  // ---------------------------------------------------------------- a cached id that is gone

  /** A cached id whose blob is gone, or is another's by now: the next holder to store the body writes it into a row. */
  lemma DeadCacheEntry(s: State, body: Raw, id: Id, h: nat)
    requires body in s.cache.ids && s.cache.ids[body] == id && !Live(s, id, body) && h in s.holders
    ensures CanLose(s)
  {
    var hit := Apply(SCAN_ORDER, s, StoreHit(h, body));
    var kept := Apply(SCAN_ORDER, hit, Pin(h, id));
    var j := Above(kept.rows.Keys);
    var step := RecordEvent(h, j, 0, OneRecord(body), OneRef(id), j);
    OneRefCompacts(body, id, kept.holders[h].kept);
    assert Enabled(SCAN_ORDER, kept, step);
    var n := Apply(SCAN_ORDER, kept, step);
    OneRefExpands(n.blobs, id);
    assert n.rows[RowKey(Events, j)] == Row(OneRef(id), OneRecord(body), j, 0);
    assert !RowsIntact(n);
    Now(n);
    Then(kept, step);
    Then(hit, Pin(h, id));
    Then(s, StoreHit(h, body));
  }

  lemma DeadCacheIsLost(s: State, body: Raw, id: Id)
    requires body in s.cache.ids && s.cache.ids[body] == id && !Live(s, id, body)
    ensures CanLose(s)
  {
    if s.holders == map[] {
      var n := Apply(SCAN_ORDER, s, Acquire(0));
      DeadCacheEntry(n, body, id, 0);
      Then(s, Acquire(0));
    } else {
      var h :| h in s.holders;
      DeadCacheEntry(s, body, id, h);
    }
  }

  /** A cached blob that the sweep will delete without emptying the cache again. */
  ghost predicate Fading(s: State, body: Raw, id: Id)
  {
    && body in s.cache.ids && s.cache.ids[body] == id
    && s.sweep.Deleting? && s.sweep.cleared && id in s.sweep.rest && id !in s.pinned && !Owed(s, id)
  }

  lemma {:induction false} Faded(s: State, body: Raw, id: Id)
    requires Fading(s, body, id) && s.holders == map[]
    ensures CanLose(s)
    decreases if s.sweep.Deleting? then |s.sweep.rest| else 0
  {
    var n := Apply(SCAN_ORDER, s, DeleteSome);
    var batch := Batch(s.sweep.rest);
    assert s.sweep.rest == batch + n.sweep.rest;
    if id in batch {
      DeadCacheIsLost(n, body, id);
    } else {
      assert forall i :: !Owed(n, i);
      Faded(n, body, id);
    }
    Then(s, DeleteSome);
  }

  lemma {:induction false} FadesWhenHoldersLeave(s: State, body: Raw, id: Id, h: nat)
    requires Fading(s, body, id) && h in s.holders
    ensures CanLose(s)
    decreases |s.holders|, if h in s.holders then |s.holders[h].owed| else 0
  {
    if s.holders[h].owed == map[] {
      var n := Apply(SCAN_ORDER, s, Release(h));
      assert !Owed(n, id) by {
        forall g | g in n.holders ensures id !in n.holders[g].owed { assert id !in s.holders[g].owed; }
      }
      assert n.holders.Keys == s.holders.Keys - {h};
      if n.holders == map[] {
        Faded(n, body, id);
      } else {
        var g :| g in n.holders;
        FadesWhenHoldersLeave(n, body, id, g);
      }
      Then(s, Release(h));
    } else {
      var x :| x in s.holders[h].owed;
      var n := Apply(SCAN_ORDER, s, Pin(h, x));
      FadesPastPin(s, n, body, id, h, x);
      FadesWhenHoldersLeave(n, body, id, h);
      Then(s, Pin(h, x));
    }
  }

  lemma FadesPastPin(s: State, n: State, body: Raw, id: Id, h: nat, x: Id)
    requires Fading(s, body, id) && h in s.holders && x in s.holders[h].owed && n == Apply(SCAN_ORDER, s, Pin(h, x))
    ensures Fading(n, body, id) && |n.holders| == |s.holders| && |n.holders[h].owed| < |s.holders[h].owed|
  {
    assert x != id by { assert Owed(s, x); }
    assert !Owed(n, id) by {
      forall g | g in n.holders ensures id !in n.holders[g].owed { assert id !in s.holders[g].owed; }
    }
    assert n.holders[h].owed == s.holders[h].owed - {x};
    assert n.holders[h].owed.Keys == s.holders[h].owed.Keys - {x};
    assert n.holders.Keys == s.holders.Keys;
  }

  // ---------------------------------------------------------------- exactly when

  lemma UnsafeInJournal(s: State, row: Row, id: Id)
    requires Inv(SCAN_ORDER, s) && Scanned(SCAN_ORDER, s, Journal) && id in RefIds(row.stored) && !Safe(s, id)
    ensures !Journaled(s, row)
    ensures s.sweep.Scanning? ==> 3 <= s.sweep.done <= 4
  {
    if s.sweep.Scanning? {
      var upto := SCAN_ORDER[..s.sweep.done];
      assert Journal in upto;
      var i :| 0 <= i < |upto| && upto[i] == Journal;
      assert SCAN_ORDER[i] == Journal;
    }
  }

  /** The occurrences-only update of an event can be followed by a lost blob exactly when its journal copy is new,
      the journal has been scanned, and some copied id is neither marked, pinned, owed nor out of the sweep's reach. */
  lemma TouchLosesExactlyWhenUncovered(s: State, step: Step)
    requires Inv(SCAN_ORDER, s) && Enabled(SCAN_ORDER, s, step) && step.TouchEvent?
    ensures CanLose(Apply(SCAN_ORDER, s, step)) <==> !TouchCovered(SCAN_ORDER, s, step.e)
  {
    var n := Apply(SCAN_ORDER, s, step);
    if TouchCovered(SCAN_ORDER, s, step.e) {
      TouchStep(SCAN_ORDER, s, step);
      InvNeverLoses(n);
    } else {
      var row := s.rows[RowKey(Events, step.e)];
      var id :| id in RefIds(row.stored) && !Safe(s, id);
      UnsafeInJournal(s, row, id);
      ExpandRefsLive(s.blobs, row.stored);
      assert n.rows[RowKey(Journal, step.j)] == row && !Owed(n, id);
      ExposedIsLost(n, RowKey(Journal, step.j), id);
    }
  }

  /** Finding, inserting or pinning a blob without the lock never leads to a loss by itself. */
  lemma LooseStoreLosesNothing(s: State, step: Step)
    requires Inv(SCAN_ORDER, s) && Enabled(SCAN_ORDER, s, step)
    requires (step.LooseHit? || step.LooseInsert? || step.LoosePin?)
    ensures !CanLose(Apply(SCAN_ORDER, s, step))
  {
    LooseStepKeepsInv(SCAN_ORDER, s, step);
    InvNeverLoses(Apply(SCAN_ORDER, s, step));
  }

  /** Entering a blob into the cache without the lock can be followed by a loss exactly when the blob is gone or is
      another's by now, or the sweep has emptied the cache already and will still delete it. */
  lemma LooseCacheLosesExactlyWhenUncovered(s: State, c: nat)
    requires Inv(SCAN_ORDER, s) && Enabled(SCAN_ORDER, s, LooseCache(c))
    ensures CanLose(Apply(SCAN_ORDER, s, LooseCache(c))) <==> !LooseCacheCovered(s, c)
  {
    var n := Apply(SCAN_ORDER, s, LooseCache(c));
    var (id, body) := (s.callers[c].id, s.callers[c].body);
    if LooseCacheCovered(s, c) {
      LooseCacheStep(SCAN_ORDER, s, LooseCache(c));
      InvNeverLoses(n);
    } else {
      assert n.cache.ids[body] == id;
      if Live(s, id, body) {
        assert Fading(n, body, id) by { assert Owed(n, id) ==> Owed(s, id); }
        if n.holders == map[] {
          Faded(n, body, id);
        } else {
          var h :| h in n.holders;
          FadesWhenHoldersLeave(n, body, id, h);
        }
      } else {
        DeadCacheIsLost(n, body, id);
      }
    }
  }
}

/** The pruning transaction and the cached reader, against the tables' specification. */
module EvidencePruning {
  import opened Basics
  import opened EvidenceTables
  import opened EvidenceCounts

  /** How often each reference occurs in one list. */
  method CountUses(refs: seq<nat>) returns (uses: map<nat, nat>)
    ensures forall r :: (r in uses <==> r in refs) && (r in uses ==> uses[r] == multiset(refs)[r])
  {
    uses := map[];
    for i := 0 to |refs|
      invariant forall r :: (r in uses <==> r in refs[..i]) && (r in uses ==> uses[r] == multiset(refs[..i])[r])
    {
      assert refs[..i + 1] == refs[..i] + [refs[i]];
      var ref := refs[i];
      uses := uses[ref := (if ref in uses then uses[ref] else 0) + 1];
    }
    assert refs[..|refs|] == refs;
  }

  /** Each counted reference is taken off its record; references to missing records change nothing. */
  method Release(records: Records, refs: seq<nat>) returns (next: Records)
    ensures next == map r | r in records :: records[r].(uses := records[r].uses - multiset(refs)[r])
  {
    next := records;
    var uses := CountUses(refs);
    var rest := uses.Keys;
    while rest != {}
      invariant rest <= uses.Keys && next.Keys == records.Keys
      invariant forall r :: r in records ==>
        next[r] == if r in uses && r !in rest then records[r].(uses := records[r].uses - uses[r]) else records[r]
      decreases rest
    {
      var ref :| ref in rest;
      if ref in next { next := next[ref := next[ref].(uses := next[ref].uses - uses[ref])]; }
      rest := rest - {ref};
    }
    forall r | r in records && r !in uses ensures multiset(refs)[r] == 0 {
      assert r !in refs;
    }
  }

  // ---------------------------------------------------------------- batches

  const PRUNE_BATCH := 16

  predicate Ascending(ids: seq<nat>)
  {
    forall i, j :: 0 <= i < j < |ids| ==> ids[i] < ids[j]
  }

  ghost predicate Before(ids: seq<nat>, rest: set<nat>)
  {
    forall i, id :: 0 <= i < |ids| && id in rest ==> ids[i] < id
  }

  /** The sixteen smallest ids, in order, or all of them if there are fewer. */
  ghost predicate FirstOf(batch: seq<nat>, ids: set<nat>)
  {
    && Ascending(batch) && |batch| <= 16 && (forall i :: 0 <= i < |batch| ==> batch[i] in ids)
    && (forall i, id :: 0 <= i < |batch| && id in ids && id !in batch ==> batch[i] < id)
    && (|batch| < 16 ==> forall id :: id in ids ==> id in batch)
  }

  /** ORDER BY id LIMIT 16. */
  method FirstEligible(ids: set<nat>) returns (batch: seq<nat>)
    ensures FirstOf(batch, ids)
  {
    batch := [];
    var rest, n := ids, 0;
    while |batch| < PRUNE_BATCH && rest != {}
      invariant forall id :: id in rest <==> id in ids && id !in batch
      invariant forall id :: id in rest ==> n <= id
      invariant forall i :: 0 <= i < |batch| ==> batch[i] in ids && batch[i] < n
      invariant Ascending(batch) && |batch| <= PRUNE_BATCH
      decreases NextId(ids) - n
    {
      ghost var some :| some in rest;
      if n in rest { batch, rest := batch + [n], rest - {n}; }
      n := n + 1;
    }
  }

  ghost predicate Decodes(t: Tables, id: nat)
    requires id in t.runtime
  {
    !t.runtime[id].payload.refs.OtherRefs?
  }

  ghost predicate AllDecode(t: Tables, eligible: set<nat>)
  {
    forall id :: id in eligible && id in t.runtime ==> Decodes(t, id)
  }

  /** The next batch holds a row whose references do not decode. */
  ghost predicate Stuck(t: Tables, eligible: set<nat>)
  {
    exists batch :: FirstOf(batch, eligible * t.runtime.Keys) &&
                    exists i :: 0 <= i < |batch| && !Decodes(t, batch[i])
  }

  class RuntimeTables {
    var t: Tables

    method PruneOne(id: nat)
      requires id in t.runtime
      modifies this
      ensures t == PruneRow(old(t), id)
    {
      var records := Release(t.records, Refs(t.runtime[id].payload));
      t := Tables(t.runtime - {id}, records, map key | key in t.incidents && t.incidents[key].runtime != id ::
          t.incidents[key]);
    }

    /** One batch of pruneArchivedRuntimeEvidence: all of it, or, when a row's references do not decode,
        nothing. */
    method PruneArchived(batch: seq<nat>) returns (ok: bool)
      requires forall i :: 0 <= i < |batch| ==> batch[i] in t.runtime
      requires forall i, j :: 0 <= i < j < |batch| ==> batch[i] != batch[j]
      modifies this
      ensures ok <==> forall i :: 0 <= i < |batch| ==> !old(t).runtime[batch[i]].payload.refs.OtherRefs?
      ensures t == if ok then PruneBatch(old(t), batch) else old(t)
    {
      var begun := t;
      for i := 0 to |batch|
        invariant t == PruneRows(old(t), batch[..i])
        invariant t.runtime == old(t).runtime - (set j | 0 <= j < i :: batch[j])
        invariant forall j :: 0 <= j < i ==> !old(t).runtime[batch[j]].payload.refs.OtherRefs?
      {
        if t.runtime[batch[i]].payload.refs.OtherRefs? {
          t := begun;
          return false;
        }
        assert batch[..i + 1][..i] == batch[..i];
        PruneOne(batch[i]);
      }
      assert batch[..|batch|] == batch;
      t := t.(records := DropUnused(t.records));
      return true;
    }

    /** One round of the loop: this batch, and the choice of the next. */
    method PruneNext(batch: seq<nat>, ghost begun: Tables, eligible: set<nat>, ghost gone: seq<nat>)
      returns (ok: bool, next: seq<nat>)
      requires Going(begun, t, eligible, gone, batch) && batch != []
      modifies this
      ensures ok ==> Going(begun, t, eligible, gone + batch, next)
      ensures ok ==> eligible * t.runtime.Keys < eligible * old(t).runtime.Keys
      ensures !ok ==> t == old(t) && Stuck(t, eligible) && !AllDecode(begun, eligible)
    {
      next := [];
      ok := PruneArchived(batch);
      if ok {
        PrunedThen(begun, old(t), t, eligible, gone, batch);
        next := FirstEligible(eligible * t.runtime.Keys);
        FullBatches(|gone|, batch, next, eligible * t.runtime.Keys);
      } else {
        PrunedStuck(begun, t, eligible, gone, batch);
      }
    }

    /** pruneArchivedRuntimeEvidence: batch after batch of what is eligible, until nothing is or a row does not
        decode. */
    method PruneEligible(eligible: set<nat>) returns (ok: bool, count: nat, ghost gone: seq<nat>)
      requires Inv(t)
      modifies this
      ensures Pruned(old(t), t, eligible, gone) && count == |gone|
      ensures ok <==> AllDecode(old(t), eligible)
      ensures ok ==> eligible * t.runtime.Keys == {}
      ensures !ok ==> count % 16 == 0 && Stuck(t, eligible)
    {
      ghost var begun := t;
      ok, count, gone := true, 0, [];
      var batch := FirstEligible(eligible * t.runtime.Keys);
      while batch != []
        invariant Going(begun, t, eligible, gone, batch) && count == |gone|
        decreases eligible * t.runtime.Keys
      {
        var next;
        ok, next := PruneNext(batch, begun, eligible, gone);
        if !ok { return; }
        gone := gone + batch;
        count, batch := count + |batch|, next;
      }
      PrunedDone(begun, t, eligible, gone);
    }
  }

  // ---------------------------------------------------------------- reading through a cache

  ghost predicate CacheSound(cache: map<nat, Body>, records: Records)
  {
    forall r :: r in cache ==> r in records && records[r].body == cache[r]
  }

  /** expandRuntimeEvidence's records, through a cache shared by the rows of one read. */
  method ExpandRecordRefs(records: Records, p: Payload, cache: map<nat, Body>) returns (r: Result<RecordField>,
                          loaded: map<nat, Body>)
    requires CacheSound(cache, records)
    ensures CacheSound(loaded, records) && cache.Keys <= loaded.Keys
    ensures r == ExpandRecords(records, p)
  {
    loaded := cache;
    match p.refs
    case NoRefs => r := Ok(p.records);
    case NullRefs => r := Ok(NullRecords);
    case OtherRefs => r := Err;
    case RefList(ids) =>
      var list: seq<Body> := [];
      for i := 0 to |ids|
        invariant CacheSound(loaded, records) && cache.Keys <= loaded.Keys
        invariant |list| == i && forall j :: 0 <= j < i ==> ids[j] in records && list[j] == records[ids[j]].body
      {
        if ids[i] !in loaded {
          if ids[i] !in records { return Err, loaded; }
          loaded := loaded[ids[i] := records[ids[i]].body];
        }
        list := list + [loaded[ids[i]]];
      }
      assert list == Bodies(records, ids);
      r := Ok(RecordList(list));
  }

  /** A row that a prune of these ids leaves refers to the record. */
  ghost predicate StillUsed(t: Tables, ids: seq<nat>, r: nat)
  {
    exists id :: id in t.runtime && id !in ids && r in Refs(t.runtime[id].payload)
  }

  ghost predicate Refers(runtime: Runtime, r: nat)
  {
    exists id :: id in runtime && r in Refs(runtime[id].payload)
  }

  lemma CountedExactlyWhenReferred(runtime: Runtime, r: nat)
    ensures Occurrences(runtime, r) > 0 <==> Refers(runtime, r)
  {
    if Refers(runtime, r) {
      var id :| id in runtime && r in Refs(runtime[id].payload);
      OccurrencesPositive(runtime, id, r);
    } else {
      OccurrencesZero(runtime, r);
    }
  }

  lemma LeftRefers(t: Tables, u: Tables, ids: seq<nat>, r: nat)
    requires Left(t, u, ids)
    ensures Refers(u.runtime, r) <==> StillUsed(t, ids, r)
  {
    if StillUsed(t, ids, r) {
      var id :| id in t.runtime && id !in ids && r in Refs(t.runtime[id].payload);
      assert id in u.runtime && r in Refs(u.runtime[id].payload);
    }
  }

  lemma StillUsedStays(t: Tables, ids: seq<nat>, r: nat)
    requires Inv(t) && r in t.records
    ensures r in PruneBatch(t, ids).records <==> StillUsed(t, ids, r)
  {
    PruneRowsKeep(t, ids);
    PruneKeepsInv(t, ids);
    LeftRefers(t, PruneRows(t, ids), ids, r);
    CountedExactlyWhenReferred(PruneRows(t, ids).runtime, r);
  }

  /** What a prune leaves: the other rows and the incidents they own, untouched, and, if anything went, exactly the
      records that some remaining row refers to. */
  ghost predicate Without(t: Tables, u: Tables, gone: seq<nat>)
  {
    && (forall id :: id in u.runtime <==> id in t.runtime && id !in gone)
    && (forall id :: id in u.runtime ==> u.runtime[id] == t.runtime[id])
    && (forall key :: key in u.incidents <==> key in t.incidents && t.incidents[key].runtime !in gone)
    && (forall key :: key in u.incidents ==> u.incidents[key] == t.incidents[key])
    && (forall r :: r in u.records ==> r in t.records && u.records[r].body == t.records[r].body)
    && (forall r :: r in t.records && gone != [] ==> (r in u.records <==> Refers(u.runtime, r)))
    && (gone == [] ==> u == t)
  }

  lemma BatchIsWithout(t: Tables, ids: seq<nat>)
    requires Inv(t) && ids != []
    ensures Inv(PruneBatch(t, ids)) && Without(t, PruneBatch(t, ids), ids)
  {
    PruneRowsKeep(t, ids);
    PruneKeepsInv(t, ids);
    PruneRowsSameBodies(t, ids);
    var u := PruneBatch(t, ids);
    forall r | r in t.records ensures r in u.records <==> Refers(u.runtime, r) {
      CountedExactlyWhenReferred(u.runtime, r);
    }
  }

  lemma WithoutThen(t: Tables, m: Tables, u: Tables, a: seq<nat>, b: seq<nat>)
    requires Without(t, m, a) && Without(m, u, b) && b != []
    ensures Without(t, u, a + b)
  {
    forall r | r in t.records && Refers(u.runtime, r) ensures r in u.records {
      var id :| id in u.runtime && r in Refs(u.runtime[id].payload);
      assert id in m.runtime && Refers(m.runtime, r);
    }
  }

  /** How far the batches have come. */
  ghost predicate Pruned(begun: Tables, t: Tables, eligible: set<nat>, gone: seq<nat>)
  {
    && Inv(t) && Without(begun, t, gone) && Ascending(gone) && Before(gone, eligible * t.runtime.Keys)
    && forall id :: id in gone ==> id in eligible && id in begun.runtime && Decodes(begun, id)
  }

  lemma AscendingThen(gone: seq<nat>, batch: seq<nat>, ids: set<nat>, rest: set<nat>)
    requires Ascending(gone) && Before(gone, ids) && FirstOf(batch, ids) && rest <= ids
    requires forall id :: id in rest ==> id !in batch
    ensures Ascending(gone + batch) && Before(gone + batch, rest)
  {
  }

  lemma BatchShrinks(was: Tables, t: Tables, batch: seq<nat>, eligible: set<nat>)
    requires Without(was, t, batch) && FirstOf(batch, eligible * was.runtime.Keys) && batch != []
    ensures eligible * t.runtime.Keys < eligible * was.runtime.Keys
    ensures forall id :: id in eligible * t.runtime.Keys ==> id !in batch
    ensures |batch| < PRUNE_BATCH ==> eligible * t.runtime.Keys == {}
  {
    assert batch[0] in eligible * was.runtime.Keys && batch[0] !in t.runtime;
  }

  lemma PrunedThen(begun: Tables, was: Tables, t: Tables, eligible: set<nat>, gone: seq<nat>, batch: seq<nat>)
    requires Pruned(begun, was, eligible, gone) && FirstOf(batch, eligible * was.runtime.Keys) && batch != []
    requires t == PruneBatch(was, batch) && forall i :: 0 <= i < |batch| ==> Decodes(was, batch[i])
    ensures Pruned(begun, t, eligible, gone + batch) && eligible * t.runtime.Keys < eligible * was.runtime.Keys
    ensures |batch| < PRUNE_BATCH ==> eligible * t.runtime.Keys == {}
  {
    BatchIsWithout(was, batch);
    WithoutThen(begun, was, t, gone, batch);
    BatchShrinks(was, t, batch, eligible);
    AscendingThen(gone, batch, eligible * was.runtime.Keys, eligible * t.runtime.Keys);
  }

  lemma PrunedStuck(begun: Tables, t: Tables, eligible: set<nat>, gone: seq<nat>, batch: seq<nat>)
    requires Without(begun, t, gone) && FirstOf(batch, eligible * t.runtime.Keys)
    requires exists i :: 0 <= i < |batch| && !Decodes(t, batch[i])
    ensures Stuck(t, eligible) && !AllDecode(begun, eligible)
  {
    var i :| 0 <= i < |batch| && !Decodes(t, batch[i]);
    assert batch[i] in eligible && batch[i] in begun.runtime && !Decodes(begun, batch[i]);
  }

  /** And what comes next; only the last batch is short. */
  ghost predicate Going(begun: Tables, t: Tables, eligible: set<nat>, gone: seq<nat>, batch: seq<nat>)
  {
    && Pruned(begun, t, eligible, gone) && FirstOf(batch, eligible * t.runtime.Keys)
    && (|gone| % PRUNE_BATCH == 0 || batch == [])
  }

  lemma FullBatches(count: nat, batch: seq<nat>, next: seq<nat>, ids: set<nat>)
    requires count % PRUNE_BATCH == 0 && |batch| <= PRUNE_BATCH && FirstOf(next, ids)
    requires |batch| < PRUNE_BATCH ==> ids == {}
    ensures (count + |batch|) % PRUNE_BATCH == 0 || next == []
  {
    assert next == [] || next[0] in ids;
  }

  lemma PrunedDone(begun: Tables, t: Tables, eligible: set<nat>, gone: seq<nat>)
    requires Pruned(begun, t, eligible, gone) && FirstOf([], eligible * t.runtime.Keys)
    ensures eligible * t.runtime.Keys == {} && AllDecode(begun, eligible)
  {
    forall id | id in eligible && id in begun.runtime ensures id in gone {
      assert id !in eligible * t.runtime.Keys;
    }
  }

  lemma PruneSurvives(before: Records, after: Records, cache: map<nat, Body>)
    requires CacheSound(cache, before) && forall r :: r in after ==> r in before && after[r].body == before[r].body
    ensures CacheSound(cache, after) <==> forall r :: r in cache ==> r in after
  {
  }

  ghost predicate AllStillUsed(t: Tables, ids: seq<nat>, cache: map<nat, Body>)
  {
    forall r :: r in cache ==> StillUsed(t, ids, r)
  }

  lemma PruneCacheSurvives(t: Tables, ids: seq<nat>, cache: map<nat, Body>)
    requires Inv(t) && CacheSound(cache, t.records)
    ensures CacheSound(cache, PruneBatch(t, ids).records) <==> AllStillUsed(t, ids, cache)
  {
    PruneRowsSameBodies(t, ids);
    PruneSurvives(t.records, PruneBatch(t, ids).records, cache);
    forall r | r in cache
      ensures r in PruneBatch(t, ids).records <==> StillUsed(t, ids, r)
    {
      StillUsedStays(t, ids, r);
    }
  }

  lemma RecordCacheSurvives(t: Tables, action: Action, cache: map<nat, Body>)
    requires UniqueBodies(t.records) && CacheSound(cache, t.records) && !action.Prune?
    ensures CacheSound(cache, Act(t, action).records)
  {
    match action
    case Legacy(_) =>
    case Record(report) => NormaliseSameBodies(t, NextId(t.runtime.Keys), report.identity, report.attributed,
        report.payload);
    case NormaliseRow(id) =>
      if id in t.runtime {
        NormaliseSameBodies(t, id, t.runtime[id].identity, t.runtime[id].attributed, t.runtime[id].payload);
      }
  }

  /** A cache stays sound under every transaction but a prune, and under a prune exactly when some remaining
      row still refers to each of the cached records. */
  lemma CacheSurvives(t: Tables, action: Action, cache: map<nat, Body>)
    requires Inv(t) && CacheSound(cache, t.records)
    ensures CacheSound(cache, Act(t, action).records)
            <==> (action.Prune? ==> AllStillUsed(t, action.ids, cache))
  {
    if action.Prune? { PruneCacheSurvives(t, action.ids, cache); } else { RecordCacheSurvives(t, action, cache); }
  }

  lemma NormaliseSameBodies(t: Tables, id: nat, identity: string, attributed: bool, p: Payload)
    requires UniqueBodies(t.records)
    ensures var records := Normalise(t, id, identity, attributed, p).0.records;
            forall r :: r in t.records ==> r in records && records[r].body == t.records[r].body
  {
    if p.records.RecordList? { ShareAllEffect(t.records, p.records.records); }
  }

  lemma {:induction false} PruneRowsSameBodies(t: Tables, ids: seq<nat>)
    ensures forall r :: r in t.records ==> PruneRows(t, ids).records[r].body == t.records[r].body
  {
    if ids != [] { PruneRowsSameBodies(t, ids[..|ids| - 1]); }
  }
}

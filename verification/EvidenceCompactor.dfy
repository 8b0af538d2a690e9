/** The batched compactor, with its caches of record ids and incident owners and its deferred use counts,
    refines the per-row normaliser; reports may be recorded directly between its batches. */
module EvidenceCompactor {
  import opened EvidenceTables
  import opened EvidenceCounts

  function Pending(uses: map<nat, nat>, r: nat): nat
  {
    if r in uses then uses[r] else 0
  }

  /** The records as they will be once the deferred uses are added. */
  ghost function Settle(records: Records, uses: map<nat, nat>): Records
  {
    map r | r in records :: records[r].(uses := records[r].uses + Pending(uses, r))
  }

  ghost function SettleAll(t: Tables, uses: map<nat, nat>): Tables
  {
    t.(records := Settle(t.records, uses))
  }

  lemma SettleNone(records: Records)
    ensures Settle(records, map[]) == records
  {
  }

  /** Deferring a count does not change which id a body has. */
  lemma SettleSameId(records: Records, uses: map<nat, nat>, body: Body)
    requires UniqueBodies(records)
    ensures IdOf(Settle(records, uses), body) == IdOf(records, body)
  {
    var settled := Settle(records, uses);
    if HasBody(records, body) {
      var id :| id in records && records[id].body == body;
      assert id in settled && settled[id].body == body;
    } else {
      assert !HasBody(settled, body);
      assert settled.Keys == records.Keys;
    }
  }

  /** Inserting with no use and deferring one is the same, in the end, as inserting with one use. */
  lemma SettleShare(records: Records, uses: map<nat, nat>, body: Body)
    requires UniqueBodies(records) && uses.Keys <= records.Keys
    ensures var id := IdOf(records, body);
            Settle(Share(records, body, 0), uses[id := Pending(uses, id) + 1]) == Share(Settle(records, uses), body, 1)
  {
    SettleSameId(records, uses, body);
    var id := IdOf(records, body);
    if id in records {
      SettleOld(records, uses, id);
    } else {
      SettleNew(records, uses, id, body);
    }
  }

  lemma SettleOld(records: Records, uses: map<nat, nat>, id: nat)
    requires id in records
    ensures Settle(records[id := records[id].(uses := records[id].uses + 0)], uses[id := Pending(uses, id) + 1])
         == Settle(records, uses)[id := Settle(records, uses)[id].(uses := Settle(records, uses)[id].uses + 1)]
  {
  }

  lemma SettleNew(records: Records, uses: map<nat, nat>, id: nat, body: Body)
    requires id !in records && id !in uses
    ensures Settle(records[id := Shared(body, 0)], uses[id := Pending(uses, id) + 1])
        == Settle(records, uses)[id := Shared(body, 1)]
  {
  }

  /** The cache of owners never claims an earlier row than the table does. */
  ghost predicate KnownSound(known: map<IncidentKey, nat>, table: Incidents)
  {
    forall key :: key in known ==> key in table && table[key].runtime <= known[key]
  }

  ghost predicate IdsSound(recordIDs: map<Body, nat>, records: Records)
  {
    forall body :: body in recordIDs ==> recordIDs[body] in records && records[recordIDs[body]].body == body
  }

  lemma CachedIdIsId(recordIDs: map<Body, nat>, records: Records, body: Body)
    requires IdsSound(recordIDs, records) && UniqueBodies(records) && body in recordIDs
    ensures IdOf(records, body) == recordIDs[body]
  {
    assert HasBody(records, body);
  }

  method NextRowId(keys: set<nat>) returns (next: nat)
    ensures next == NextId(keys)
    ensures next == 1 || next - 1 in keys
  {
    next := 1;
    var rest := keys;
    while rest != {}
      invariant rest <= keys && next > 0
      invariant forall k :: k in keys && k !in rest ==> k < next
      invariant next == 1 || next - 1 in keys
      decreases rest
    {
      var k :| k in rest;
      if k >= next { next := k + 1; }
      rest := rest - {k};
    }
    NextIdLeast(keys, next);
  }

  class EvidenceDB {
    var t: Tables
    var known: map<IncidentKey, nat>
    var recordIDs: map<Body, nat>
    var recordUses: map<nat, nat>
    var cursor: nat

    ghost predicate Valid()
      reads this
    {
      && UniqueBodies(t.records)
      && KnownSound(known, t.incidents) && IdsSound(recordIDs, t.records) && recordUses.Keys <= t.records.Keys
    }

    /** The tables, with the deferred uses added when the caches are in use. */
    ghost function View(cached: bool): Tables
      reads this
    {
      if cached then SettleAll(t, recordUses) else t
    }

    /** One incident: an owner already known to be no later is skipped without touching the table. */
    method NormalizeIncident(cached: bool, key: IncidentKey, id: nat, ordinal: nat, body: Body) returns (affected: nat)
      requires Valid()
      modifies this`t, this`known
      ensures Valid() && t == old(t).(incidents := t.incidents)
      ensures (t.incidents, affected) == PutIncident(old(t.incidents), key, id, ordinal, body)
    {
      if cached && key in known && known[key] <= id {
        return 0;
      }
      if cached { known := known[key := id]; }
      if key !in t.incidents || id < t.incidents[key].runtime {
        t := t.(incidents := t.incidents[key := Owned(id, ordinal, body)]);
        return 1;
      }
      return 0;
    }

    method NormalizeIncidents(cached: bool, id: nat, identity: string, attributed: bool, capable: bool,
                              list: seq<Incident>) returns (stored: nat)
      requires Valid()
      modifies this`t, this`known
      ensures Valid() && t == old(t).(incidents := t.incidents)
      ensures (t.incidents, stored) == PutIncidents(old(t.incidents), id, identity, attributed, capable, list)
    {
      stored := 0;
      for ordinal := 0 to |list|
        invariant Valid() && t == old(t).(incidents := t.incidents)
        invariant (t.incidents, stored)
            == PutIncidents(old(t.incidents), id, identity, attributed, capable, list[..ordinal])
      {
        PutIncidentsNext(old(t.incidents), id, identity, attributed, capable, list, ordinal);
        var affected := NormalizeIncident(cached, KeyOf(identity, attributed, capable, list[ordinal]), id, ordinal,
            list[ordinal].body);
        stored := stored + affected;
      }
      assert list[..|list|] == list;
    }

    method FindRecord(body: Body) returns (id: nat)
      requires UniqueBodies(t.records)
      ensures id == IdOf(t.records, body)
    {
      if existing :| existing in t.records.Keys && t.records[existing].body == body {
        id := existing;
        assert HasBody(t.records, body);
      } else {
        assert !HasBody(t.records, body);
        id := NextRowId(t.records.Keys);
      }
    }

    method Upsert(body: Body, uses: nat) returns (id: nat)
      requires Valid()
      modifies this`t
      ensures Valid()
      ensures id == IdOf(old(t.records), body) && t == old(t).(records := Share(old(t.records), body, uses))
    {
      id := FindRecord(body);
      ShareOnce(t.records, body, uses);
      if id in t.records {
        t := t.(records := t.records[id := t.records[id].(uses := t.records[id].uses + uses)]);
      } else {
        t := t.(records := t.records[id := Shared(body, uses)]);
      }
    }

    /** The id of a record through the cache, inserting the record without a use when it is new. */
    method CacheRecord(body: Body) returns (id: nat)
      requires Valid()
      modifies this`t, this`recordIDs
      ensures Valid() && t == old(t).(records := Share(old(t).records, body, 0))
      ensures id == IdOf(old(t).records, body) && id in t.records
    {
      if body in recordIDs {
        CachedIdIsId(recordIDs, t.records, body);
        id := recordIDs[body];
        ShareNothing(t.records, body);
      } else {
        id := Upsert(body, 0);
        recordIDs := recordIDs[body := id];
      }
    }

    /** One record: counted at once, or found through the cache and counted later. */
    method NormalizeRecord(cached: bool, body: Body) returns (id: nat)
      requires Valid()
      modifies this`t, this`recordIDs, this`recordUses
      ensures Valid() && t == old(t).(records := t.records)
      ensures id == IdOf(old(View(cached)).records, body)
      ensures View(cached).records == Share(old(View(cached)).records, body, 1)
      ensures !cached ==> recordUses == old(recordUses)
    {
      if cached {
        SettleSameId(t.records, recordUses, body);
        SettleShare(t.records, recordUses, body);
        id := CacheRecord(body);
        recordUses := recordUses[id := Pending(recordUses, id) + 1];
      } else {
        id := Upsert(body, 1);
      }
    }

    method NormalizeRecords(cached: bool, list: seq<Body>) returns (ids: seq<nat>)
      requires Valid()
      modifies this`t, this`recordIDs, this`recordUses
      ensures Valid() && t == old(t).(records := t.records)
      ensures (View(cached).records, ids) == ShareAll(old(View(cached)).records, list)
      ensures !cached ==> recordUses == old(recordUses)
    {
      ids := [];
      for i := 0 to |list|
        invariant Valid() && t == old(t).(records := t.records)
        invariant (View(cached).records, ids) == ShareAll(old(View(cached)).records, list[..i])
        invariant !cached ==> recordUses == old(recordUses)
      {
        assert list[..i + 1] == list[..i] + [list[i]];
        ShareAllLast(old(View(cached)).records, list[..i], list[i]);
        var id := NormalizeRecord(cached, list[i]);
        ids := ids + [id];
      }
      assert list[..|list|] == list;
    }

    /** normalizeRuntimeEvidence, with caches or without: the same row and, once deferred uses are added,
        the same tables as the uncached normaliser. */
    method Normalize(cached: bool, id: nat, identity: string, attributed: bool, p: Payload) returns (q: Payload)
      requires Valid()
      modifies this`t, this`known, this`recordIDs, this`recordUses
      ensures Valid()
      ensures (View(cached), q) == Normalise(old(View(cached)), id, identity, attributed, p)
      ensures t.runtime == old(t.runtime)
      ensures !cached ==> recordUses == old(recordUses)
    {
      q := p;
      if p.incidents.IncidentList? {
        var stored := NormalizeIncidents(cached, id, identity, attributed, p.capable, p.incidents.incidents);
        q := q.(incidents := NoIncidents, external := p.external || stored > 0);
      }
      match p.records
      case NullRecords =>
        q := q.(records := NoRecords, refs := NullRefs);
      case RecordList(list) =>
        var ids := NormalizeRecords(cached, list);
        q := q.(records := NoRecords, refs := RefList(ids));
      case _ =>
    }

    /** RecordRuntimeEvidence: insert, normalise without caches, update, in one transaction. */
    method RecordRuntimeEvidence(report: Report)
      requires Valid() && recordUses == map[]
      modifies this`t, this`known, this`recordIDs, this`recordUses
      ensures Valid() && recordUses == map[]
      ensures t == RecordReport(old(t), report)
    {
      var id := NextRowId(t.runtime.Keys);
      var p := Normalize(false, id, report.identity, report.attributed, report.payload);
      t := t.(runtime := t.runtime[id := Row(report.identity, report.attributed, p, report.payload)]);
    }

    method AddUses(id: nat)
      requires Valid() && id in recordUses
      modifies this`t, this`recordUses
      ensures Valid() && recordUses == old(recordUses) - {id}
      ensures SettleAll(t, recordUses) == old(SettleAll(t, recordUses))
    {
      CreditSettles(t.records, recordUses, id);
      CreditKeeps(t.records, recordIDs, id, recordUses[id]);
      var credited := Credit(t.records, id, recordUses[id]);
      t, recordUses := t.(records := credited), recordUses - {id};
    }

    /** The counts deferred by one batch, added at its end in any order. */
    method FlushUses()
      requires Valid()
      modifies this`t, this`recordUses
      ensures Valid() && recordUses == map[]
      ensures t == SettleAll(old(t), old(recordUses))
    {
      while recordUses != map[]
        invariant Valid()
        invariant SettleAll(t, recordUses) == old(SettleAll(t, recordUses))
        decreases |recordUses|
      {
        var id :| id in recordUses.Keys;
        AddUses(id);
      }
      SettleNone(t.records);
    }

    /** One row of a batch. */
    method NormalizeRow(id: nat)
      requires Valid() && id in t.runtime
      modifies this`t, this`known, this`recordIDs, this`recordUses
      ensures Valid()
      ensures View(true) == NormaliseOne(old(View(true)), id)
      ensures t.runtime.Keys == old(t.runtime.Keys)
    {
      var row := t.runtime[id];
      var p := Normalize(true, id, row.identity, row.attributed, row.payload);
      t := t.(runtime := t.runtime[id := row.(payload := p)]);
    }

    /** One transaction of the compactor ends in the tables of the uncached normaliser on the same rows. */
    method CompactBatch(batch: seq<nat>)
      requires Valid() && batch != [] && forall i :: 0 <= i < |batch| ==> batch[i] in t.runtime
      modifies this
      ensures Valid() && recordUses == map[] && cursor == batch[|batch| - 1]
      ensures t == ActAll(old(t), RowActions(batch))
      ensures t.runtime.Keys == old(t.runtime.Keys)
    {
      recordUses := map[];
      SettleNone(t.records);
      assert RowActions(batch[..0]) == [];
      for i := 0 to |batch|
        invariant Valid()
        invariant View(true) == ActAll(old(t), RowActions(batch[..i]))
        invariant t.runtime.Keys == old(t.runtime.Keys)
      {
        RowActionsNext(batch, i);
        NormalizeRow(batch[i]);
      }
      assert batch[..|batch|] == batch;
      FlushUses();
      cursor := batch[|batch| - 1];
    }

    /** Rows after the cursor, in id order, up to a limit. */
    method SelectBatch(maxID: nat, limit: nat) returns (batch: seq<nat>)
      requires limit > 0
      ensures Selected(t.runtime.Keys, cursor, maxID, limit, batch)
    {
      batch := [];
      var n := cursor + 1;
      while n <= maxID && |batch| < limit
        invariant cursor < n && |batch| <= limit
        invariant Ascending(batch)
        invariant forall i :: 0 <= i < |batch| ==> cursor < batch[i] <= maxID && batch[i] < n && batch[i] in t.runtime
        invariant forall id :: id in t.runtime && cursor < id < n && id <= maxID ==> id in batch
      {
        if n in t.runtime { batch := batch + [n]; }
        n := n + 1;
      }
    }

    /** The caches a compaction starts from: every record and every incident owner in the tables. */
    method LoadCaches()
      requires UniqueBodies(t.records)
      modifies this`known, this`recordIDs, this`recordUses
      ensures Valid() && recordUses == map[]
    {
      recordIDs := map r | r in t.records :: t.records[r].body := r;
      known := map key | key in t.incidents :: t.incidents[key].runtime;
      recordUses := map[];
    }

    method RecordAll(reports: seq<Report>, ghost bound: nat)
      requires Valid() && recordUses == map[] && bound in t.runtime
      modifies this`t, this`known, this`recordIDs, this`recordUses
      ensures Valid() && recordUses == map[]
      ensures t == ActAll(old(t), RecordActions(reports))
      ensures GrewAbove(old(t.runtime).Keys, t.runtime.Keys, bound)
    {
      assert RecordActions(reports[..0]) == [];
      for i := 0 to |reports|
        invariant Valid() && recordUses == map[]
        invariant t == ActAll(old(t), RecordActions(reports[..i]))
        invariant GrewAbove(old(t.runtime).Keys, t.runtime.Keys, bound)
      {
        RecordActionsNext(reports, i);
        RecordRuntimeEvidence(reports[i]);
      }
      assert reports[..|reports|] == reports;
    }

    /** One round of a pass: the reports others record meanwhile, then the next batch, if there is one. */
    method NextBatch(bound: nat, batchSize: nat, reports: seq<Report>) returns (batch: seq<nat>)
      requires Valid() && recordUses == map[] && bound in t.runtime && batchSize > 0
      modifies this
      ensures Valid() && recordUses == map[]
      ensures t == ActAll(old(t), RecordActions(reports) + RowActions(batch))
      ensures GrewAbove(old(t.runtime).Keys, t.runtime.Keys, bound)
      ensures Selected(t.runtime.Keys, old(cursor), bound, batchSize, batch)
      ensures cursor == if batch == [] then old(cursor) else batch[|batch| - 1]
    {
      RecordAll(reports, bound);
      batch := SelectBatch(bound, batchSize);
      ActConcat(old(t), RecordActions(reports), RowActions(batch));
      if batch != [] { CompactBatch(batch); }
    }

    /** One round, added to the script that explains the tables so far. */
    method Round(ghost start: Tables, ghost from: nat, bound: nat, batchSize: nat, ghost done: seq<Report>,
                 reports: seq<Report>, ghost script: seq<Action>)
      returns (ghost more: seq<Action>, complete: bool)
      requires Valid() && recordUses == map[] && bound in start.runtime && batchSize > 0
      requires Explains(start, from, bound, done, script, t, cursor)
      modifies this
      ensures Valid() && recordUses == map[]
      ensures Explains(start, from, bound, done + reports, more, t, cursor)
      ensures if complete then AllTaken(start, from, more) else old(cursor) < cursor
    {
      ghost var before, at := t, cursor;
      var batch := NextBatch(bound, batchSize, reports);
      ExplainsRound(start, from, bound, done, script, before, at, batchSize, reports, batch, t, cursor);
      more := script + (RecordActions(reports) + RowActions(batch));
      complete := |batch| < batchSize;
    }

    /** The loop of CompactRuntimeEvidence. Before batch k the reports arrivals[k] are recorded by others; the pass
        may be cancelled after `stopAfter` batches. However it ends, the tables are those of a script of direct
        transactions and of nothing else: the same reports in the same order, and each row once, in id order,
        up to the bound taken at the start; a complete pass has taken every row after the old cursor. */
    method CompactAll(batchSize: nat, arrivals: seq<seq<Report>>, stopAfter: nat)
      returns (ghost script: seq<Action>, ghost bound: nat, ghost used: nat, complete: bool)
      requires UniqueBodies(t.records)
      modifies this
      ensures UniqueBodies(t.records)
      ensures batchSize < 1 ==> script == [] && !complete
      ensures used <= |arrivals| && Explains(old(t), old(cursor), bound, Flatten(arrivals[..used]), script, t, cursor)
      ensures complete ==> AllTaken(old(t), old(cursor), script)
    {
      script, used, complete := [], 0, false;
      var next := NextRowId(t.runtime.Keys);
      var maxID := next - 1;
      bound := maxID;
      ExplainsNothing(t, cursor, maxID);
      assert arrivals[..0] == [];
      if batchSize < 1 { return; }
      if cursor >= maxID { complete := true; return; }
      LoadCaches();
      var batches := 0;
      while !complete && batches != stopAfter
        invariant Valid() && recordUses == map[]
        invariant used == if batches < |arrivals| then batches else |arrivals|
        invariant Explains(old(t), old(cursor), maxID, Flatten(arrivals[..used]), script, t, cursor)
        invariant complete ==> AllTaken(old(t), old(cursor), script)
        decreases if complete then 0 else if cursor < maxID then 2 + maxID - cursor else 1
      {
        if cursor >= maxID {
          complete := true;
        } else {
          var reports := if batches < |arrivals| then arrivals[batches] else [];
          script, complete := Round(old(t), old(cursor), maxID, batchSize, Flatten(arrivals[..used]), reports, script);
          if batches < |arrivals| { FlattenNext(arrivals, batches); used := used + 1; }
          batches := batches + 1;
        }
      }
    }

    /** The whole pass: what the loop explains keeps the counts exact when the reports are clean. */
    method CompactRuntimeEvidence(batchSize: nat, arrivals: seq<seq<Report>>, stopAfter: nat)
      returns (ghost script: seq<Action>, ghost bound: nat, ghost used: nat, complete: bool)
      requires UniqueBodies(t.records)
      modifies this
      ensures UniqueBodies(t.records)
      ensures batchSize < 1 ==> script == [] && !complete
      ensures used <= |arrivals| && Explains(old(t), old(cursor), bound, Flatten(arrivals[..used]), script, t, cursor)
      ensures complete ==> AllTaken(old(t), old(cursor), script)
      ensures Inv(old(t)) && CleanArrivals(arrivals) ==> Inv(t)
    {
      script, bound, used, complete := CompactAll(batchSize, arrivals, stopAfter);
      CompactionKeepsClean(old(t), old(cursor), bound, arrivals, used, script, t, cursor);
    }
  }

  /** A script that only records reports and normalises rows. */
  ghost predicate Direct(script: seq<Action>)
  {
    forall i :: 0 <= i < |script| ==> script[i].Record? || script[i].NormaliseRow?
  }

  /** The tables and cursor are those of a script of direct transactions: these reports, in order, and rows
      taken once, in id order, up to the cursor, none above the bound. */
  ghost predicate Explains(start: Tables, from: nat, bound: nat, reports: seq<Report>, script: seq<Action>, t: Tables,
                           cursor: nat)
  {
    && t == ActAll(start, script) && Recorded(script) == reports && Direct(script)
    && (forall id :: id in start.runtime ==> id <= bound)
    && Reached(start.runtime.Keys, from, bound, RowIds(script), t.runtime.Keys, cursor)
  }

  ghost predicate AllTaken(start: Tables, from: nat, script: seq<Action>)
  {
    forall id :: id in start.runtime && from < id ==> id in RowIds(script)
  }

  lemma ExplainsNothing(t: Tables, cursor: nat, bound: nat)
    requires forall id :: id in t.runtime ==> id <= bound
    ensures Explains(t, cursor, bound, Flatten([]), [], t, cursor)
    ensures bound <= cursor ==> AllTaken(t, cursor, [])
  {
  }

  lemma ExplainsRound(start: Tables, from: nat, bound: nat, done: seq<Report>, script: seq<Action>, before: Tables,
                      at: nat, limit: nat,
                      reports: seq<Report>, batch: seq<nat>, after: Tables, cursor: nat)
    requires Explains(start, from, bound, done, script, before, at)
    requires after == ActAll(before, RecordActions(reports) + RowActions(batch))
    requires GrewAbove(before.runtime.Keys, after.runtime.Keys, bound)
    requires Selected(after.runtime.Keys, at, bound, limit, batch)
    requires cursor == if batch == [] then at else batch[|batch| - 1]
    ensures Explains(start, from, bound, done + reports, script + (RecordActions(reports) + RowActions(batch)), after,
        cursor)
    ensures |batch| < limit ==> AllTaken(start, from, script + (RecordActions(reports) + RowActions(batch)))
  {
    AppendRound(start, script, reports, batch);
    ReachedRound(start.runtime.Keys, from, bound, RowIds(script), before.runtime.Keys, after.runtime.Keys, at, limit,
                 batch);
  }

  lemma {:induction false} RecordedHas(script: seq<Action>, i: nat)
    requires i < |script| && script[i].Record?
    ensures script[i].report in Recorded(script)
    decreases |script|
  {
    if i < |script| - 1 { RecordedHas(script[..|script| - 1], i); }
  }

  /** So exact counts, faithful rows and owners survive a compaction with clean reports arriving: whatever
      holds of every run of direct transactions holds after it, and no row is lost. */
  lemma CompactionKeepsInv(start: Tables, from: nat, bound: nat, reports: seq<Report>, script: seq<Action>, t: Tables,
                           cursor: nat)
    requires Explains(start, from, bound, reports, script, t, cursor) && Inv(start)
    requires forall report :: report in reports ==> NoReserved(report.payload)
    ensures Inv(t) && (OwnersLeast(start) ==> OwnersLeast(t)) && start.runtime.Keys <= t.runtime.Keys
  {
    forall i | 0 <= i < |script| ensures Clean(script[i]) && !script[i].Prune? {
      if script[i].Record? { RecordedHas(script, i); }
    }
    RunFromKeepsInv(start, script);
  }

  predicate CleanArrivals(arrivals: seq<seq<Report>>)
  {
    forall i, j :: 0 <= i < |arrivals| && 0 <= j < |arrivals[i]| ==> NoReserved(arrivals[i][j].payload)
  }

  lemma {:induction false} CleanFlatten(arrivals: seq<seq<Report>>, used: nat)
    requires CleanArrivals(arrivals) && used <= |arrivals|
    ensures forall report :: report in Flatten(arrivals[..used]) ==> NoReserved(report.payload)
    decreases used
  {
    if used > 0 {
      CleanFlatten(arrivals, used - 1);
      FlattenNext(arrivals, used - 1);
    }
  }

  lemma CompactionKeepsClean(start: Tables, from: nat, bound: nat, arrivals: seq<seq<Report>>, used: nat,
                             script: seq<Action>, t: Tables, cursor: nat)
    requires used <= |arrivals| && Explains(start, from, bound, Flatten(arrivals[..used]), script, t, cursor)
    ensures Inv(start) && CleanArrivals(arrivals) ==> Inv(t)
  {
    if Inv(start) && CleanArrivals(arrivals) {
      CleanFlatten(arrivals, used);
      CompactionKeepsInv(start, from, bound, Flatten(arrivals[..used]), script, t, cursor);
    }
  }

  ghost predicate Selected(rows: set<nat>, cursor: nat, bound: nat, limit: nat, batch: seq<nat>)
  {
    && Ascending(batch) && |batch| <= limit
    && (forall i :: 0 <= i < |batch| ==> cursor < batch[i] <= bound && batch[i] in rows)
    && (forall id :: id in rows && cursor < id <= bound && id !in batch ==>
        |batch| == limit > 0 && batch[limit - 1] < id)
  }

  ghost predicate GrewAbove(before: set<nat>, after: set<nat>, bound: nat)
  {
    before <= after && forall id :: id in after && id !in before ==> bound < id
  }

  /** How far a pass has come: the rows up to the cursor were taken in order, and only rows above the bound
      were added. */
  ghost predicate Reached(start: set<nat>, from: nat, bound: nat, ids: seq<nat>, rows: set<nat>, cursor: nat)
  {
    && Ascending(ids) && (forall id :: id in ids ==> id in start && from < id <= bound)
    && cursor == (if ids == [] then from else ids[|ids| - 1])
    && (forall id :: id in start && from < id <= cursor ==> id in ids)
    && GrewAbove(start, rows, bound)
  }

  lemma ReachedRound(start: set<nat>, from: nat, bound: nat, ids: seq<nat>, before: set<nat>, rows: set<nat>,
                     cursor: nat, limit: nat, batch: seq<nat>)
    requires Reached(start, from, bound, ids, before, cursor) && GrewAbove(before, rows, bound)
    requires Selected(rows, cursor, bound, limit, batch)
    ensures Reached(start, from, bound, ids + batch, rows, if batch == [] then cursor else batch[|batch| - 1])
    ensures |batch| < limit ==> forall id :: id in start && from < id <= bound ==> id in ids + batch
  {
    assert from <= cursor by { if ids != [] { assert ids[|ids| - 1] in ids; } }
    forall id | id in ids + batch ensures id in start && from < id <= bound {}
    forall i, j | 0 <= i < j < |ids + batch|
      ensures (ids + batch)[i] < (ids + batch)[j]
    {
      if i < |ids| <= j && i < |ids| - 1 { assert ids[i] < ids[|ids| - 1]; }
    }
    forall id | id in start && from < id <= bound && (|batch| < limit || (batch != [] && id <= batch[|batch| - 1]))
      ensures id in ids + batch
    {
      if cursor >= id { assert id in ids; } else { assert id in rows; }
    }
  }

  lemma AppendRound(t: Tables, script: seq<Action>, reports: seq<Report>, batch: seq<nat>)
    ensures var more := script + (RecordActions(reports) + RowActions(batch));
            && ActAll(t, more) == ActAll(ActAll(t, script), RecordActions(reports) + RowActions(batch))
            && RowIds(more) == RowIds(script) + batch
            && Recorded(more) == Recorded(script) + reports
            && (Direct(script) ==> Direct(more))
  {
    ActConcat(t, script, RecordActions(reports) + RowActions(batch));
    Associates(script, RecordActions(reports), RowActions(batch));
    AppendRecords(script, reports);
    AppendRows(script + RecordActions(reports), batch);
  }

  lemma Associates<T>(a: seq<T>, b: seq<T>, c: seq<T>)
    ensures a + (b + c) == (a + b) + c
  {
  }

  predicate Ascending(ids: seq<nat>)
  {
    forall i, j :: 0 <= i < j < |ids| ==> ids[i] < ids[j]
  }

  function RecordActions(reports: seq<Report>): seq<Action>
  {
    seq(|reports|, i requires 0 <= i < |reports| => Record(reports[i]))
  }

  lemma RecordActionsNext(reports: seq<Report>, n: nat)
    requires n < |reports|
    ensures forall t ::
        ActAll(t, RecordActions(reports[..n + 1])) == RecordReport(ActAll(t, RecordActions(reports[..n])), reports[n])
  {
    assert RecordActions(reports[..n + 1]) == RecordActions(reports[..n]) + [Record(reports[n])];
    forall t: Tables
      ensures ActAll(t, RecordActions(reports[..n + 1]))
          == RecordReport(ActAll(t, RecordActions(reports[..n])), reports[n])
    {
      ActLast(t, RecordActions(reports[..n]), Record(reports[n]));
    }
  }

  /** The rows a script normalises, and the reports it records, each in order. */
  function RowIds(script: seq<Action>): seq<nat>
  {
    if script == [] then []
    else RowIds(script[..|script| - 1]) + (if script[|script| - 1].NormaliseRow? then [script[|script| - 1].id] else [])
  }

  function Recorded(script: seq<Action>): seq<Report>
  {
    if script == [] then []
    else Recorded(script[..|script| - 1]) + (if script[|script| - 1].Record? then [script[|script| - 1].report] else [])
  }

  function Flatten(arrivals: seq<seq<Report>>): seq<Report>
  {
    if arrivals == [] then [] else Flatten(arrivals[..|arrivals| - 1]) + arrivals[|arrivals| - 1]
  }

  function RowActions(ids: seq<nat>): seq<Action>
  {
    seq(|ids|, i requires 0 <= i < |ids| => NormaliseRow(ids[i]))
  }

  lemma RowActionsNext(ids: seq<nat>, n: nat)
    requires n < |ids|
    ensures RowActions(ids[..n + 1]) == RowActions(ids[..n]) + [NormaliseRow(ids[n])]
    ensures forall t :: ActAll(t, RowActions(ids[..n + 1])) == NormaliseOne(ActAll(t, RowActions(ids[..n])), ids[n])
  {
    assert RowActions(ids[..n + 1]) == RowActions(ids[..n]) + [NormaliseRow(ids[n])];
    forall t: Tables
      ensures ActAll(t, RowActions(ids[..n + 1])) == NormaliseOne(ActAll(t, RowActions(ids[..n])), ids[n])
    {
      ActLast(t, RowActions(ids[..n]), NormaliseRow(ids[n]));
    }
  }

  lemma FlattenNext(arrivals: seq<seq<Report>>, n: nat)
    requires n < |arrivals|
    ensures Flatten(arrivals[..n + 1]) == Flatten(arrivals[..n]) + arrivals[n]
  {
    assert arrivals[..n + 1][..n] == arrivals[..n];
  }

  lemma {:induction false} AppendRecords(script: seq<Action>, reports: seq<Report>)
    ensures RowIds(script + RecordActions(reports)) == RowIds(script)
    ensures Recorded(script + RecordActions(reports)) == Recorded(script) + reports
    decreases |reports|
  {
    if reports == [] {
      assert script + RecordActions(reports) == script;
    } else {
      var n := |reports| - 1;
      AppendRecords(script, reports[..n]);
      var all := script + RecordActions(reports);
      assert all[..|all| - 1] == script + RecordActions(reports[..n]);
      assert reports == reports[..n] + [reports[n]];
    }
  }

  lemma {:induction false} AppendRows(script: seq<Action>, ids: seq<nat>)
    ensures RowIds(script + RowActions(ids)) == RowIds(script) + ids
    ensures Recorded(script + RowActions(ids)) == Recorded(script)
    decreases |ids|
  {
    if ids == [] {
      assert script + RowActions(ids) == script;
    } else {
      var n := |ids| - 1;
      AppendRows(script, ids[..n]);
      var all := script + RowActions(ids);
      assert all[..|all| - 1] == script + RowActions(ids[..n]);
      assert ids == ids[..n] + [ids[n]];
    }
  }

  lemma ActLast(t: Tables, actions: seq<Action>, action: Action)
    ensures ActAll(t, actions + [action]) == Act(ActAll(t, actions), action)
  {
    assert (actions + [action])[..|actions|] == actions;
  }

  lemma {:induction false} ActConcat(t: Tables, a: seq<Action>, b: seq<Action>)
    ensures ActAll(t, a + b) == ActAll(ActAll(t, a), b)
    decreases |b|
  {
    if b == [] {
      assert a + b == a;
    } else {
      var n := |b| - 1;
      ActConcat(t, a, b[..n]);
      assert a + b == (a + b[..n]) + [b[n]];
      ActLast(t, a + b[..n], b[n]);
    }
  }

  function Credit(records: Records, id: nat, uses: nat): Records
    requires id in records
  {
    records[id := records[id].(uses := records[id].uses + uses)]
  }

  /** Moving one deferred count into its record leaves the settled table as it was. */
  lemma CreditSettles(records: Records, uses: map<nat, nat>, id: nat)
    requires id in uses && id in records
    ensures Settle(Credit(records, id, uses[id]), uses - {id}) == Settle(records, uses)
  {
  }

  lemma CreditKeeps(records: Records, recordIDs: map<Body, nat>, id: nat, uses: nat)
    requires UniqueBodies(records) && IdsSound(recordIDs, records) && id in records
    ensures Credit(records, id, uses).Keys == records.Keys
    ensures UniqueBodies(Credit(records, id, uses)) && IdsSound(recordIDs, Credit(records, id, uses))
  {
  }

  lemma ShareNothing(records: Records, body: Body)
    requires HasBody(records, body)
    ensures Share(records, body, 0) == records
  {
  }

  lemma PutIncidentsNext(table: Incidents, id: nat, identity: string, attributed: bool, capable: bool,
                         list: seq<Incident>, n: nat)
    requires n < |list|
    ensures var (rest, stored) := PutIncidents(table, id, identity, attributed, capable, list[..n]);
            var (next, one) := PutIncident(rest, KeyOf(identity, attributed, capable, list[n]), id, n, list[n].body);
            PutIncidents(table, id, identity, attributed, capable, list[..n + 1]) == (next, stored + one)
  {
    assert list[..n + 1][..n] == list[..n];
  }
}

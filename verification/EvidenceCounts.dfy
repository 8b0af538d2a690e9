/** What every transaction on the evidence tables keeps: exact use counts, faithful expansion, owners. */
module EvidenceCounts {
  import opened Basics
  import opened EvidenceTables
  import Sums

  // ---------------------------------------------------------------- counting references

  function Times(p: Payload, r: nat): nat
  {
    multiset(Refs(p))[r]
  }

  ghost function Counts(runtime: Runtime, r: nat): map<nat, nat>
  {
    map id | id in runtime :: Times(runtime[id].payload, r)
  }

  /** How often record `r` occurs, counting repeats, in the reference lists of all rows. */
  ghost function Occurrences(runtime: Runtime, r: nat): nat
  {
    Sums.Total(Counts(runtime, r))
  }

  lemma CountsPut(runtime: Runtime, id: nat, row: Row, r: nat)
    ensures Counts(runtime[id := row], r) == Counts(runtime, r)[id := Times(row.payload, r)]
  {
  }

  lemma CountsWithout(runtime: Runtime, id: nat, r: nat)
    ensures Counts(runtime, r) - {id} == Counts(runtime - {id}, r)
  {
  }

  lemma OccurrencesPut(runtime: Runtime, id: nat, row: Row, r: nat)
    ensures Occurrences(runtime[id := row], r) == Occurrences(runtime - {id}, r) + Times(row.payload, r)
  {
    CountsPut(runtime, id, row, r);
    CountsWithout(runtime, id, r);
    Sums.TotalUpdate(Counts(runtime, r), id, Times(row.payload, r));
  }

  lemma OccurrencesSplit(runtime: Runtime, id: nat, r: nat)
    requires id in runtime
    ensures Occurrences(runtime, r) == Occurrences(runtime - {id}, r) + Times(runtime[id].payload, r)
  {
    OccurrencesPut(runtime, id, runtime[id], r);
    assert runtime[id := runtime[id]] == runtime;
  }

  lemma OccurrencesAbsent(runtime: Runtime, id: nat, r: nat)
    requires id !in runtime
    ensures Occurrences(runtime - {id}, r) == Occurrences(runtime, r)
  {
    assert runtime - {id} == runtime;
  }

  // ---------------------------------------------------------------- invariant

  ghost predicate Counted(t: Tables)
  {
    && (forall r :: r in t.records ==> t.records[r].uses == Occurrences(t.runtime, r))
    && (forall id, r :: id in t.runtime && r in Refs(t.runtime[id].payload) ==> r in t.records)
  }

  /** Every stored count is the number of occurrences, no reference dangles, and no record is unused. */
  ghost predicate Exact(t: Tables)
  {
    Counted(t) && forall r :: r in t.records ==> t.records[r].uses > 0
  }

  predicate Spells(records: Records, ids: seq<nat>, list: seq<Body>)
  {
    && |ids| == |list|
    && forall i :: 0 <= i < |ids| ==> ids[i] in records && records[ids[i]].body == list[i]
  }

  /** The payload's records are still inline, or its references spell them out. */
  predicate RecordsFaithful(records: Records, row: Row)
  {
    match row.payload.refs
    case NoRefs => row.payload.records == row.reported.records
    case NullRefs => row.payload.records.NoRecords? && row.reported.records.NullRecords?
    case RefList(ids) =>
      row.payload.records.NoRecords? && row.reported.records.RecordList?
          && Spells(records, ids, row.reported.records.records)
    case OtherRefs => false
  }

  predicate NoReserved(p: Payload)
  {
    p.refs.NoRefs? && !p.external
  }

  predicate Normalised(row: Row)
  {
    row.reported.incidents.IncidentList? && row.payload.incidents.NoIncidents?
  }

  predicate RowFaithful(records: Records, row: Row)
  {
    && NoReserved(row.reported) && RecordsFaithful(records, row)
    && row.payload.capable == row.reported.capable && row.payload.rest == row.reported.rest
    && (Normalised(row) || (row.payload.incidents == row.reported.incidents && !row.payload.external))
  }

  ghost predicate Faithful(t: Tables)
  {
    forall id :: id in t.runtime ==> RowFaithful(t.records, t.runtime[id])
  }

  function RowKey(row: Row, incident: Incident): IncidentKey
  {
    KeyOf(row.identity, row.attributed, row.reported.capable, incident)
  }

  /** The row's incidents were moved out and this one was among them. */
  ghost predicate Reports(row: Row, key: IncidentKey)
  {
    Normalised(row) && exists i ::
        0 <= i < |row.reported.incidents.incidents| && RowKey(row, row.reported.incidents.incidents[i]) == key
  }

  /** A stored incident is the first mention of its key in the report of the row that owns it. */
  ghost predicate OwnerSound(runtime: Runtime, key: IncidentKey, owned: Owned)
  {
    && owned.runtime in runtime
    && var row := runtime[owned.runtime];
    && Normalised(row) && row.payload.external
    && var list := row.reported.incidents.incidents;
    && owned.ordinal < |list| && RowKey(row, list[owned.ordinal]) == key && list[owned.ordinal].body == owned.body
    && forall i :: 0 <= i < owned.ordinal ==> RowKey(row, list[i]) != key
  }

  ghost predicate OwnersSound(t: Tables)
  {
    forall key :: key in t.incidents ==> OwnerSound(t.runtime, key, t.incidents[key])
  }

  ghost predicate Inv(t: Tables)
  {
    UniqueBodies(t.records) && Exact(t) && Faithful(t) && OwnersSound(t)
  }

  /** Every reported incident is stored, under the smallest row that reported it. */
  ghost predicate OwnersLeast(t: Tables)
  {
    forall id, key :: id in t.runtime && Reports(t.runtime[id], key) ==>
        key in t.incidents && t.incidents[key].runtime <= id
  }

  // ---------------------------------------------------------------- sharing records

  ghost predicate SharedBy(before: Records, after: Records, ids: seq<nat>)
  {
    && UniqueBodies(after)
    && (forall r :: r in before ==> r in after && after[r].body == before[r].body
                                    && after[r].uses == before[r].uses + multiset(ids)[r])
    && (forall r :: r in after && r !in before ==> after[r].uses == multiset(ids)[r] && r in ids)
    && (forall r :: r in ids ==> r in after)
  }

  lemma ShareOnce(records: Records, body: Body, uses: nat)
    requires UniqueBodies(records)
    ensures UniqueBodies(Share(records, body, uses))
    ensures IdOf(records, body) in Share(records, body, uses)
    ensures Share(records, body, uses)[IdOf(records, body)].body == body
  {
  }

  lemma ShareMore(before: Records, rest: Records, ids: seq<nat>, body: Body)
    requires SharedBy(before, rest, ids)
    ensures SharedBy(before, Share(rest, body, 1), ids + [IdOf(rest, body)])
  {
    var id := IdOf(rest, body);
    ShareOnce(rest, body, 1);
    assert multiset(ids + [id]) == multiset(ids) + multiset{id};
    assert (ids + [id])[|ids|] == id;
  }

  lemma ShareNone(records: Records)
    requires UniqueBodies(records)
    ensures SharedBy(records, records, []) && Spells(records, [], [])
  {
  }

  lemma {:induction false} ShareAllEffect(records: Records, list: seq<Body>)
    requires UniqueBodies(records)
    ensures SharedBy(records, ShareAll(records, list).0, ShareAll(records, list).1)
    ensures Spells(ShareAll(records, list).0, ShareAll(records, list).1, list)
    decreases |list|
  {
    if list == [] {
      ShareNone(records);
    } else {
      var n := |list| - 1;
      ShareAllEffect(records, list[..n]);
      ShareStep(records, list[..n], list[n]);
      assert list[..n] + [list[n]] == list;
    }
  }

  lemma ShareStep(records: Records, list: seq<Body>, body: Body)
    requires SharedBy(records, ShareAll(records, list).0, ShareAll(records, list).1)
    requires Spells(ShareAll(records, list).0, ShareAll(records, list).1, list)
    ensures SharedBy(records, ShareAll(records, list + [body]).0, ShareAll(records, list + [body]).1)
    ensures Spells(ShareAll(records, list + [body]).0, ShareAll(records, list + [body]).1, list + [body])
  {
    var rest, ids := ShareAll(records, list).0, ShareAll(records, list).1;
    ShareAllLast(records, list, body);
    ShareMore(records, rest, ids, body);
    SpellsMore(records, rest, ids, list, body);
  }

  lemma ShareAllLast(records: Records, list: seq<Body>, body: Body)
    ensures ShareAll(records, list + [body])
            == (Share(ShareAll(records, list).0, body, 1),
                ShareAll(records, list).1 + [IdOf(ShareAll(records, list).0, body)])
  {
    assert (list + [body])[..|list|] == list;
  }

  lemma SpellsMore(before: Records, rest: Records, ids: seq<nat>, list: seq<Body>, body: Body)
    requires SharedBy(before, rest, ids) && Spells(rest, ids, list)
    ensures Spells(Share(rest, body, 1), ids + [IdOf(rest, body)], list + [body])
  {
    ShareOnce(rest, body, 1);
  }

  // ---------------------------------------------------------------- storing incidents

  ghost predicate Mentions(identity: string, attributed: bool, capable: bool, list: seq<Incident>, key: IncidentKey)
  {
    exists i :: 0 <= i < |list| && KeyOf(identity, attributed, capable, list[i]) == key
  }

  /** The row takes exactly the incidents it mentions that are new or owned by a larger row. */
  ghost predicate Takes(table: Incidents, id: nat, identity: string, attributed: bool, capable: bool,
                        list: seq<Incident>, key: IncidentKey)
  {
    Mentions(identity, attributed, capable, list, key) && (key !in table || id < table[key].runtime)
  }

  ghost predicate FirstMention(identity: string, attributed: bool, capable: bool, list: seq<Incident>, key: IncidentKey,
                               owned: Owned)
  {
    && owned.ordinal < |list| && KeyOf(identity, attributed, capable, list[owned.ordinal]) == key
    && owned.body == list[owned.ordinal].body
    && forall i :: 0 <= i < owned.ordinal ==> KeyOf(identity, attributed, capable, list[i]) != key
  }

  lemma {:induction false} PutIncidentsEffect(table: Incidents, id: nat, identity: string, attributed: bool,
                                              capable: bool, list: seq<Incident>, key: IncidentKey)
    ensures var (after, stored) := PutIncidents(table, id, identity, attributed, capable, list);
            if Takes(table, id, identity, attributed, capable, list, key) then
              && stored > 0 && key in after && after[key].runtime == id
              && FirstMention(identity, attributed, capable, list, key, after[key])
            else
              (key in after <==> key in table) && (key in table ==> after[key] == table[key])
    decreases |list|
  {
    if list != [] {
      var n := |list| - 1;
      PutIncidentsEffect(table, id, identity, attributed, capable, list[..n], key);
      var last := KeyOf(identity, attributed, capable, list[n]);
      assert list == list[..n] + [list[n]];
      MentionsLast(identity, attributed, capable, list, key);
      if !Mentions(identity, attributed, capable, list[..n], key) {
        assert forall i :: 0 <= i < n ==> list[..n][i] == list[i];
      }
    }
  }

  lemma MentionsLast(identity: string, attributed: bool, capable: bool, list: seq<Incident>, key: IncidentKey)
    requires list != []
    ensures Mentions(identity, attributed, capable, list, key)
            <==> || Mentions(identity, attributed, capable, list[..|list| - 1], key)
                 || KeyOf(identity, attributed, capable, list[|list| - 1]) == key
  {
    var n := |list| - 1;
    if Mentions(identity, attributed, capable, list[..n], key) {
      var i :| 0 <= i < n && KeyOf(identity, attributed, capable, list[..n][i]) == key;
      assert list[i] == list[..n][i];
    }
    if Mentions(identity, attributed, capable, list, key) && KeyOf(identity, attributed, capable, list[n]) != key {
      var i :| 0 <= i < |list| && KeyOf(identity, attributed, capable, list[i]) == key;
      assert list[..n][i] == list[i];
    }
  }

  // ---------------------------------------------------------------- normalising keeps the invariant

  lemma OccurrencesZero(runtime: Runtime, r: nat)
    requires forall id :: id in runtime ==> r !in Refs(runtime[id].payload)
    ensures Occurrences(runtime, r) == 0
  {
    Sums.TotalZero(Counts(runtime, r));
  }

  lemma OccurrencesPositive(runtime: Runtime, id: nat, r: nat)
    requires id in runtime && r in Refs(runtime[id].payload)
    ensures Occurrences(runtime, r) > 0
  {
    Sums.TotalZero(Counts(runtime, r));
    assert Counts(runtime, r)[id] > 0;
  }

  /** What a row about to be normalised looks like: new and free of reserved fields, or already stored. */
  ghost predicate Ready(t: Tables, id: nat, row: Row)
  {
    && RowFaithful(t.records, row)
    && (if id in t.runtime then t.runtime[id] == row else row.payload == row.reported)
  }

  ghost function Placed(t: Tables, id: nat, row: Row): Tables
  {
    var (next, p) := Normalise(t, id, row.identity, row.attributed, row.payload);
    next.(runtime := t.runtime[id := row.(payload := p)])
  }

  /** The references normalising adds to a row: those of its record list. */
  ghost function Gained(row: Row, placed: Row): seq<nat>
  {
    if row.payload.records.RecordList? then Refs(placed.payload) else []
  }

  lemma PlacedRecords(t: Tables, id: nat, row: Row)
    requires UniqueBodies(t.records) && RowFaithful(t.records, row)
    ensures var u := Placed(t, id, row);
            && u.runtime == t.runtime[id := u.runtime[id]]
            && SharedBy(t.records, u.records, Gained(row, u.runtime[id]))
            && Refs(u.runtime[id].payload) == Refs(row.payload) + Gained(row, u.runtime[id])
    ensures var u := Placed(t, id, row); RowFaithful(u.records, u.runtime[id])
  {
    if row.payload.records.RecordList? {
      ShareAllEffect(t.records, row.payload.records.records);
    } else {
      ShareNone(t.records);
    }
  }

  /** Counts stay exact when one row gains the references its records were shared under. */
  lemma GainCounted(t: Tables, u: Tables, id: nat, row: Row, gained: seq<nat>, r: nat)
    requires Exact(t) && id in u.runtime && u.runtime == t.runtime[id := u.runtime[id]]
    requires SharedBy(t.records, u.records, gained) && Refs(u.runtime[id].payload) == Refs(row.payload) + gained
    requires if id in t.runtime then t.runtime[id] == row else Refs(row.payload) == []
    requires r in u.records
    ensures u.records[r].uses == Occurrences(u.runtime, r) && u.records[r].uses > 0
  {
    OccurrencesPut(t.runtime, id, u.runtime[id], r);
    if id in t.runtime { OccurrencesSplit(t.runtime, id, r); } else { OccurrencesAbsent(t.runtime, id, r); }
    if r !in t.records { OccurrencesZero(t.runtime, r); }
  }

  lemma PlacedExact(t: Tables, id: nat, row: Row)
    requires Inv(t) && Ready(t, id, row)
    ensures Exact(Placed(t, id, row))
  {
    var u := Placed(t, id, row);
    PlacedRecords(t, id, row);
    GainExact(t, u, id, row, Gained(row, u.runtime[id]));
  }

  lemma GainExact(t: Tables, u: Tables, id: nat, row: Row, gained: seq<nat>)
    requires Exact(t) && id in u.runtime && u.runtime == t.runtime[id := u.runtime[id]]
    requires SharedBy(t.records, u.records, gained) && Refs(u.runtime[id].payload) == Refs(row.payload) + gained
    requires if id in t.runtime then t.runtime[id] == row else Refs(row.payload) == []
    ensures Exact(u)
  {
    forall r | r in u.records
      ensures u.records[r].uses == Occurrences(u.runtime, r) && u.records[r].uses > 0
    {
      GainCounted(t, u, id, row, gained, r);
    }
  }

  lemma PlacedFaithful(t: Tables, id: nat, row: Row)
    requires Inv(t) && Ready(t, id, row)
    ensures Faithful(Placed(t, id, row))
  {
    var u := Placed(t, id, row);
    PlacedRecords(t, id, row);
    forall j | j in u.runtime
      ensures RowFaithful(u.records, u.runtime[j])
    {
      if j != id { assert RowFaithful(t.records, t.runtime[j]); }
    }
  }

  /** Normalising a row changes, of the row itself, only what was moved out. */
  ghost predicate SameReport(row: Row, placed: Row)
  {
    && placed.identity == row.identity && placed.attributed == row.attributed && placed.reported == row.reported
    && (Normalised(row) ==> Normalised(placed) && (row.payload.external ==> placed.payload.external))
  }

  lemma OwnerUntouched(runtime: Runtime, id: nat, placed: Row, key: IncidentKey, owned: Owned)
    requires OwnerSound(runtime, key, owned)
    requires id in runtime ==> SameReport(runtime[id], placed)
    ensures OwnerSound(runtime[id := placed], key, owned)
  {
  }

  lemma OwnerTaken(runtime: Runtime, id: nat, placed: Row, key: IncidentKey, owned: Owned)
    requires owned.runtime == id && Normalised(placed) && placed.payload.external
    requires FirstMention(placed.identity, placed.attributed, placed.reported.capable,
        placed.reported.incidents.incidents, key, owned)
    ensures OwnerSound(runtime[id := placed], key, owned)
  {
  }

  ghost predicate TakesKey(t: Tables, id: nat, row: Row, key: IncidentKey)
  {
    row.payload.incidents.IncidentList?
    && Takes(t.incidents, id, row.identity, row.attributed, row.payload.capable, row.payload.incidents.incidents, key)
  }

  /** For one incident: the row takes it over, or the table still says what it said. */
  lemma PlacedIncident(t: Tables, id: nat, row: Row, key: IncidentKey)
    requires RowFaithful(t.records, row)
    ensures var u := Placed(t, id, row);
            && SameReport(row, u.runtime[id]) && u.runtime == t.runtime[id := u.runtime[id]]
            && (row.payload.incidents.IncidentList? <==> Normalised(u.runtime[id]) && !Normalised(row))
            && (Normalised(row) ==> Normalised(u.runtime[id]))
    ensures var u := Placed(t, id, row);
            if TakesKey(t, id, row, key) then
              key in u.incidents && u.incidents[key].runtime == id && u.runtime[id].payload.external
              && FirstMention(row.identity, row.attributed, row.reported.capable, row.reported.incidents.incidents,
                  key, u.incidents[key])
            else
              && (key in u.incidents <==> key in t.incidents)
              && (key in t.incidents ==> u.incidents[key] == t.incidents[key])
  {
    if row.payload.incidents.IncidentList? {
      PutIncidentsEffect(t.incidents, id, row.identity, row.attributed, row.payload.capable,
                         row.payload.incidents.incidents, key);
    }
  }

  lemma PlacedOwners(t: Tables, id: nat, row: Row)
    requires Inv(t) && Ready(t, id, row)
    ensures OwnersSound(Placed(t, id, row))
  {
    var u := Placed(t, id, row);
    forall key | key in u.incidents
      ensures OwnerSound(u.runtime, key, u.incidents[key])
    {
      PlacedIncident(t, id, row, key);
      if TakesKey(t, id, row, key) {
        OwnerTaken(t.runtime, id, u.runtime[id], key, u.incidents[key]);
      } else {
        OwnerUntouched(t.runtime, id, u.runtime[id], key, u.incidents[key]);
      }
    }
  }

  /** A row mentions exactly the incidents it reports. */
  lemma ReportsMentions(row: Row, key: IncidentKey)
    requires row.reported.incidents.IncidentList?
    ensures Mentions(row.identity, row.attributed, row.reported.capable, row.reported.incidents.incidents, key)
            <==> exists i ::
                0 <= i < |row.reported.incidents.incidents| && RowKey(row, row.reported.incidents.incidents[i]) == key
  {
    if Mentions(row.identity, row.attributed, row.reported.capable, row.reported.incidents.incidents, key) {
      var i :| 0 <= i < |row.reported.incidents.incidents|
          && KeyOf(row.identity, row.attributed, row.reported.capable, row.reported.incidents.incidents[i]) == key;
      assert RowKey(row, row.reported.incidents.incidents[i]) == key;
    }
  }

  lemma PlacedLeast(t: Tables, id: nat, row: Row)
    requires Inv(t) && OwnersLeast(t) && Ready(t, id, row)
    ensures OwnersLeast(Placed(t, id, row))
  {
    var u := Placed(t, id, row);
    forall j, key | j in u.runtime && Reports(u.runtime[j], key)
      ensures key in u.incidents && u.incidents[key].runtime <= j
    {
      PlacedIncident(t, id, row, key);
      if j == id {
        ReportsMentions(u.runtime[id], key);
        if Normalised(row) {
          assert Reports(row, key);
          assert id in t.runtime;
        }
      }
    }
  }

  lemma PlacedInv(t: Tables, id: nat, row: Row)
    requires Inv(t) && Ready(t, id, row)
    ensures Inv(Placed(t, id, row))
    ensures OwnersLeast(t) ==> OwnersLeast(Placed(t, id, row))
  {
    PlacedRecords(t, id, row);
    PlacedExact(t, id, row);
    PlacedFaithful(t, id, row);
    PlacedOwners(t, id, row);
    if OwnersLeast(t) { PlacedLeast(t, id, row); }
  }

  // ---------------------------------------------------------------- pruning keeps the invariant

  ghost predicate PruneInv(t: Tables)
  {
    UniqueBodies(t.records) && Counted(t) && Faithful(t) && OwnersSound(t)
  }

  lemma PruneRowKeeps(t: Tables, id: nat)
    requires PruneInv(t)
    ensures PruneInv(PruneRow(t, id))
  {
    if id in t.runtime {
      var u := PruneRow(t, id);
      forall r | r in u.records
        ensures u.records[r].uses == Occurrences(u.runtime, r)
      {
        OccurrencesSplit(t.runtime, id, r);
      }
      forall j | j in u.runtime
        ensures RowFaithful(u.records, u.runtime[j])
      {
        assert RowFaithful(t.records, t.runtime[j]);
      }
      forall key | key in u.incidents
        ensures OwnerSound(u.runtime, key, u.incidents[key])
      {
        assert OwnerSound(t.runtime, key, t.incidents[key]);
      }
    }
  }

  /** Which rows and incidents are left after pruning. */
  ghost predicate Left(t: Tables, u: Tables, ids: seq<nat>)
  {
    && (forall id :: id in u.runtime <==> id in t.runtime && id !in ids)
    && (forall id :: id in u.runtime ==> u.runtime[id] == t.runtime[id])
    && u.records.Keys == t.records.Keys
    && (forall key :: key in u.incidents <==> key in t.incidents && t.incidents[key].runtime !in ids)
    && (forall key :: key in u.incidents ==> u.incidents[key] == t.incidents[key])
  }

  lemma LeftOne(t: Tables, id: nat)
    requires OwnersSound(t)
    ensures Left(t, PruneRow(t, id), [id])
  {
    if id !in t.runtime {
      forall key | key in t.incidents
        ensures t.incidents[key].runtime != id
      {
        assert OwnerSound(t.runtime, key, t.incidents[key]);
      }
    }
  }

  lemma {:induction false} PruneRowsKeep(t: Tables, ids: seq<nat>)
    requires PruneInv(t)
    ensures PruneInv(PruneRows(t, ids))
    ensures Left(t, PruneRows(t, ids), ids)
    decreases |ids|
  {
    if ids != [] {
      var rest := ids[..|ids| - 1];
      PruneRowsKeep(t, rest);
      PruneRowKeeps(PruneRows(t, rest), ids[|ids| - 1]);
      LeftOne(PruneRows(t, rest), ids[|ids| - 1]);
      assert ids == rest + [ids[|ids| - 1]];
    }
  }

  lemma DropKeeps(p: Tables)
    requires PruneInv(p)
    ensures Inv(p.(records := DropUnused(p.records)))
  {
    var u := p.(records := DropUnused(p.records));
    forall id, r | id in u.runtime && r in Refs(u.runtime[id].payload)
      ensures r in u.records
    {
      OccurrencesPositive(u.runtime, id, r);
    }
    forall j | j in u.runtime
      ensures RowFaithful(u.records, u.runtime[j])
    {
      assert RowFaithful(p.records, p.runtime[j]);
    }
  }

  /** One prune batch keeps the counts exact, and what it deletes is exactly what no remaining row uses. */
  lemma PruneKeepsInv(t: Tables, ids: seq<nat>)
    requires Inv(t)
    ensures Inv(PruneBatch(t, ids))
    ensures forall id :: id in PruneBatch(t, ids).runtime <==> id in t.runtime && id !in ids
    ensures forall r :: r in t.records ==>
        (r in PruneBatch(t, ids).records <==> Occurrences(PruneBatch(t, ids).runtime, r) > 0)
  {
    PruneRowsKeep(t, ids);
    DropKeeps(PruneRows(t, ids));
  }

  // ---------------------------------------------------------------- every run

  ghost predicate Clean(action: Action)
  {
    (action.Record? || action.Legacy?) ==> NoReserved(action.report.payload)
  }

  lemma ActKeepsInv(t: Tables, action: Action)
    requires Inv(t) && Clean(action)
    ensures Inv(Act(t, action))
    ensures OwnersLeast(t) && !action.Prune? ==> OwnersLeast(Act(t, action))
  {
    match action
    case Record(report) =>
      PlacedInv(t, NextId(t.runtime.Keys), Row(report.identity, report.attributed, report.payload, report.payload));
    case NormaliseRow(id) =>
      if id in t.runtime { PlacedInv(t, id, t.runtime[id]); }
    case Prune(ids) => PruneKeepsInv(t, ids);
    case Legacy(report) => LegacyKeepsInv(t, report);
  }

  lemma LegacyKeepsInv(t: Tables, report: Report)
    requires Inv(t) && NoReserved(report.payload)
    ensures Inv(Act(t, Legacy(report)))
    ensures OwnersLeast(t) ==> OwnersLeast(Act(t, Legacy(report)))
  {
    var id := NextId(t.runtime.Keys);
    var row := Row(report.identity, report.attributed, report.payload, report.payload);
    var u := Act(t, Legacy(report));
    assert SharedBy(t.records, u.records, []);
    GainExact(t, u, id, row, []);
    AddedRow(t, id, row);
  }

  /** A row that was not normalised changes no owner and no other row. */
  lemma AddedRow(t: Tables, id: nat, row: Row)
    requires Inv(t) && id !in t.runtime && RowFaithful(t.records, row) && !Normalised(row)
    ensures var u := t.(runtime := t.runtime[id := row]);
            Faithful(u) && OwnersSound(u) && (OwnersLeast(t) ==> OwnersLeast(u))
  {
    var u := t.(runtime := t.runtime[id := row]);
    forall j | j in u.runtime
      ensures RowFaithful(u.records, u.runtime[j])
    {
      if j != id { assert RowFaithful(t.records, t.runtime[j]); }
    }
    forall key | key in u.incidents
      ensures OwnerSound(u.runtime, key, u.incidents[key])
    {
      OwnerUntouched(t.runtime, id, row, key, t.incidents[key]);
    }
  }

  lemma {:induction false} RunFromKeepsInv(t: Tables, actions: seq<Action>)
    requires Inv(t) && forall i :: 0 <= i < |actions| ==> Clean(actions[i])
    ensures Inv(ActAll(t, actions))
    ensures OwnersLeast(t) && (forall i :: 0 <= i < |actions| ==> !actions[i].Prune?) ==>
        OwnersLeast(ActAll(t, actions))
    decreases |actions|
  {
    if actions != [] {
      RunFromKeepsInv(t, actions[..|actions| - 1]);
      ActKeepsInv(ActAll(t, actions[..|actions| - 1]), actions[|actions| - 1]);
    }
  }

  lemma RunKeepsInv(actions: seq<Action>)
    requires forall i :: 0 <= i < |actions| ==> Clean(actions[i])
    ensures Inv(ActAll(EMPTY_TABLES, actions))
    ensures (forall i :: 0 <= i < |actions| ==> !actions[i].Prune?) ==> OwnersLeast(ActAll(EMPTY_TABLES, actions))
  {
    RunFromKeepsInv(EMPTY_TABLES, actions);
  }

  /** After any run of records, legacy rows, normalised rows and prune batches whose reports carry no
      reserved field: every use count equals the number of occurrences, no reference dangles, and every
      row expands to the records it reported, in order and with repeats. */
  lemma CountsAndExpansionsHold(actions: seq<Action>)
    requires forall i :: 0 <= i < |actions| ==> Clean(actions[i])
    ensures var t := ActAll(EMPTY_TABLES, actions);
            && (forall r :: r in t.records ==> t.records[r].uses == Occurrences(t.runtime, r) && t.records[r].uses > 0)
            && (forall id :: id in t.runtime ==>
                ExpandRecords(t.records, t.runtime[id].payload) == Ok(t.runtime[id].reported.records))
  {
    RunKeepsInv(actions);
    var t := ActAll(EMPTY_TABLES, actions);
    forall id | id in t.runtime
      ensures ExpandRecords(t.records, t.runtime[id].payload) == Ok(t.runtime[id].reported.records)
    {
      ExpandsFaithfully(t, id);
    }
  }

  lemma ExpandsFaithfully(t: Tables, id: nat)
    requires Faithful(t) && id in t.runtime
    ensures ExpandRecords(t.records, t.runtime[id].payload) == Ok(t.runtime[id].reported.records)
  {
    var row := t.runtime[id];
    assert RowFaithful(t.records, row);
    if row.payload.refs.RefList? {
      assert ExpandRecords(t.records, row.payload).value.records == row.reported.records.records;
    }
  }

  ghost predicate ExpandsIn(t: Tables, key: IncidentKey, id: nat)
  {
    id in t.runtime && key in ExpandIncidents(t, id)
  }

  /** The body and ordinal stored are those of the first mention of the key in the row's report. */
  ghost predicate IsFirstMention(row: Row, key: IncidentKey, owned: Owned)
  {
    && row.reported.incidents.IncidentList?
    && FirstMention(row.identity, row.attributed, row.reported.capable, row.reported.incidents.incidents, key, owned)
  }

  /** In every run each stored incident appears in the expansion of exactly one row, with the body of its first
      mention in what that row reported. Without pruning, every incident a normalised row reported is stored,
      under the smallest of them. */
  lemma EachIncidentOnce(actions: seq<Action>, key: IncidentKey)
    requires forall i :: 0 <= i < |actions| ==> Clean(actions[i])
    ensures var t := ActAll(EMPTY_TABLES, actions);
            key in t.incidents ==>
              && ExpandsIn(t, key, t.incidents[key].runtime) && Reports(t.runtime[t.incidents[key].runtime], key)
              && IsFirstMention(t.runtime[t.incidents[key].runtime], key, t.incidents[key])
              && forall id :: ExpandsIn(t, key, id) ==> id == t.incidents[key].runtime
    ensures (forall i :: 0 <= i < |actions| ==> !actions[i].Prune?) ==>
              var t := ActAll(EMPTY_TABLES, actions);
              forall id :: id in t.runtime && Reports(t.runtime[id], key) ==>
                  key in t.incidents && t.incidents[key].runtime <= id
  {
    RunKeepsInv(actions);
    var t := ActAll(EMPTY_TABLES, actions);
    if key in t.incidents {
      assert OwnerSound(t.runtime, key, t.incidents[key]);
    }
  }

  ghost predicate OwnedBy(t: Tables, key: IncidentKey, ids: seq<nat>)
  {
    key in t.incidents && t.incidents[key].runtime in ids
  }

  /** Pruning an owner drops its incidents although other rows reported them too: the smallest-owner rule
      survives a batch exactly when no remaining row reported an incident the batch owned. */
  lemma PruneKeepsOwnersExactlyWhen(t: Tables, ids: seq<nat>)
    requires Inv(t) && OwnersLeast(t)
    ensures OwnersLeast(PruneBatch(t, ids))
            <==> forall id, key :: id in t.runtime && id !in ids && Reports(t.runtime[id], key) ==>
                !OwnedBy(t, key, ids)
  {
    PruneRowsKeep(t, ids);
    LeftOwners(t, PruneRows(t, ids), ids);
    SameOwners(PruneRows(t, ids), PruneBatch(t, ids));
  }

  lemma SameOwners(a: Tables, b: Tables)
    requires a.runtime == b.runtime && a.incidents == b.incidents
    ensures OwnersLeast(a) <==> OwnersLeast(b)
  {
  }

  lemma LeftOwners(t: Tables, u: Tables, ids: seq<nat>)
    requires OwnersLeast(t) && Left(t, u, ids)
    ensures OwnersLeast(u)
            <==> forall id, key :: id in t.runtime && id !in ids && Reports(t.runtime[id], key) ==>
                !OwnedBy(t, key, ids)
  {
    if forall id, key :: id in t.runtime && id !in ids && Reports(t.runtime[id], key) ==> !OwnedBy(t, key, ids) {
      forall id, key | id in u.runtime && Reports(u.runtime[id], key)
        ensures key in u.incidents && u.incidents[key].runtime <= id
      {
        assert id in t.runtime && id !in ids && Reports(t.runtime[id], key);
        assert key in t.incidents && !OwnedBy(t, key, ids);
      }
    } else {
      var id, key :| id in t.runtime && id !in ids && Reports(t.runtime[id], key) && OwnedBy(t, key, ids);
      assert id in u.runtime && Reports(u.runtime[id], key) && key !in u.incidents;
    }
  }

  /** A report that carries references of its own, and no record list that would overwrite them. */
  predicate Forges(p: Payload)
  {
    Refs(p) != [] && !p.records.NullRecords? && !p.records.RecordList?
  }

  /** RecordRuntimeEvidence does not look for reserved fields. A report keeps the counts exact exactly when
      it forges no reference. */
  lemma RecordKeepsCountsExactlyWhen(t: Tables, report: Report)
    requires Inv(t)
    ensures Exact(RecordReport(t, report)) <==> !Forges(report.payload)
  {
    if Forges(report.payload) { ForgedBreaksCounts(t, report); } else { UnforgedKeepsCounts(t, report); }
  }

  lemma ForgedBreaksCounts(t: Tables, report: Report)
    requires Inv(t) && Forges(report.payload)
    ensures !Exact(RecordReport(t, report))
  {
    var id := NextId(t.runtime.Keys);
    var u := RecordReport(t, report);
    var r := Refs(report.payload)[0];
    assert Refs(u.runtime[id].payload) == Refs(report.payload);
    OccurrencesPut(t.runtime, id, u.runtime[id], r);
    OccurrencesAbsent(t.runtime, id, r);
    assert r in Refs(u.runtime[id].payload) && Times(u.runtime[id].payload, r) > 0;
  }

  lemma UnforgedKeepsCounts(t: Tables, report: Report)
    requires Inv(t) && !Forges(report.payload)
    ensures Exact(RecordReport(t, report))
  {
    var id := NextId(t.runtime.Keys);
    var u := RecordReport(t, report);
    var placed := u.runtime[id].payload;
    var ids := Refs(placed);
    assert u.runtime == t.runtime[id := u.runtime[id]];
    assert SharedBy(t.records, u.records, ids) by {
      if report.payload.records.RecordList? { ShareAllEffect(t.records, report.payload.records.records); }
    }
    GainExact(t, u, id, Row(report.identity, report.attributed, report.payload.(refs := NoRefs), report.payload), ids);
  }

  // ---------------------------------------------------------------- witnesses

  /** A report that names record 7 in an empty table breaks the counts. */
  lemma ForgedReferenceBreaksCounts(report: Report)
    requires report.payload == Payload(NoIncidents, NoRecords, RefList([7]), false, true, "")
    ensures !Exact(RecordReport(EMPTY_TABLES, report))
  {
    ForgedBreaksCounts(EMPTY_TABLES, report);
  }

  lemma SecondRow(report: Report)
    requires report.payload.incidents.IncidentList?
    ensures var t := RecordReport(RecordReport(EMPTY_TABLES, report), report);
            t.runtime.Keys == {1, 2} && Normalised(t.runtime[1]) && Normalised(t.runtime[2])
            && forall i :: i in {1, 2} ==>
                t.runtime[i].(payload := report.payload)
                  == Row(report.identity, report.attributed, report.payload, report.payload)
  {
    NextIdLeast({}, 1);
    var one := RecordReport(EMPTY_TABLES, report);
    assert one.runtime.Keys == {1};
    NextIdLeast({1}, 2);
  }

  /** Two rows report one incident; pruning the first drops it although the second is still there. */
  lemma PrunedOwnerLosesAnIncident(report: Report, incident: Incident)
    requires NoReserved(report.payload) && report.payload.incidents == IncidentList([incident])
    ensures var t := ActAll(EMPTY_TABLES, [Record(report)] + [Record(report)]);
            OwnersLeast(t) && 2 in t.runtime && !OwnersLeast(PruneBatch(t, [1]))
  {
    var actions := [Record(report)] + [Record(report)];
    var one := actions[..1];
    assert one[..0] == [] && one[0] == Record(report);
    assert ActAll(EMPTY_TABLES, one[..0]) == EMPTY_TABLES;
    assert ActAll(EMPTY_TABLES, one) == RecordReport(EMPTY_TABLES, report);
    RunKeepsInv(actions);
    var t := ActAll(EMPTY_TABLES, actions);
    assert t == RecordReport(RecordReport(EMPTY_TABLES, report), report);
    SecondRow(report);
    var key := RowKey(t.runtime[2], incident);
    OwnedByFirst(t, key, incident);
    PruneKeepsOwnersExactlyWhen(t, [1]);
  }

  lemma OwnedByFirst(t: Tables, key: IncidentKey, incident: Incident)
    requires Inv(t) && OwnersLeast(t) && t.runtime.Keys == {1, 2} && Normalised(t.runtime[1])
    requires Normalised(t.runtime[2])
    requires t.runtime[1].reported.incidents == t.runtime[2].reported.incidents == IncidentList([incident])
    requires RowKey(t.runtime[1], incident) == RowKey(t.runtime[2], incident) == key
    ensures Reports(t.runtime[2], key) && OwnedBy(t, key, [1])
  {
    assert t.runtime[1].reported.incidents.incidents[0] == incident && t.runtime[2].reported.incidents.incidents[0]
        == incident;
    assert Reports(t.runtime[1], key) && Reports(t.runtime[2], key);
    assert key in t.incidents && t.incidents[key].runtime <= 1;
    assert OwnerSound(t.runtime, key, t.incidents[key]);
    assert [1][0] == t.incidents[key].runtime;
  }
}

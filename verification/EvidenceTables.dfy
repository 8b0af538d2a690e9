/** Runtime evidence rows that share profile records through a use count and profile incidents through an
    owner row: the tables, the per-row normaliser, expansion, and pruning.

    Payload fields: "profile_incidents", "profile_records", and the reserved "_profile_record_refs" and
    "_profile_incidents_external". Digests are injective, so a record is identified by its body. */
module EvidenceTables {
  import opened Basics

  type Body = string

  datatype Incident = Incident(run: string, id: string, body: Body)

  /** A null incident list decodes as the empty one; a field that does not decode is left alone. */
  datatype IncidentField = NoIncidents | IncidentList(incidents: seq<Incident>) | OtherIncidents
  datatype RecordField = NoRecords | NullRecords | RecordList(records: seq<Body>) | OtherRecords
  datatype RefField = NoRefs | NullRefs | RefList(ids: seq<nat>) | OtherRefs

  datatype Payload = Payload(incidents: IncidentField, records: RecordField, refs: RefField, external: bool,
      capable: bool, rest: string)

  datatype IncidentKey = IncidentKey(identity: string, capable: bool, attributed: bool, run: string, incident: string)

  /** A stored row, together with the payload as it was reported. */
  datatype Row = Row(identity: string, attributed: bool, payload: Payload, reported: Payload)

  datatype Shared = Shared(body: Body, uses: int)
  datatype Owned = Owned(runtime: nat, ordinal: nat, body: Body)

  type Runtime = map<nat, Row>
  type Records = map<nat, Shared>
  type Incidents = map<IncidentKey, Owned>

  datatype Tables = Tables(runtime: Runtime, records: Records, incidents: Incidents)

  const EMPTY_TABLES := Tables(map[], map[], map[])

  // ---------------------------------------------------------------- row ids

  /** One past the largest id in use, so that the ids of deleted rows come back. */
  ghost function NextId(keys: set<nat>): (next: nat)
    ensures next > 0 && forall k :: k in keys ==> k < next
  {
    if keys == {} then 1
    else
      var k :| k in keys;
      var rest := NextId(keys - {k});
      assert forall j :: j in keys && j != k ==> j in keys - {k};
      if k < rest then rest else k + 1
  }

  lemma {:induction false} NextIdLeast(keys: set<nat>, bound: nat)
    requires bound > 0 && forall k :: k in keys ==> k < bound
    ensures NextId(keys) <= bound
    decreases |keys|
  {
    if keys != {} {
      var k :| k in keys && NextId(keys) == (var rest := NextId(keys - {k}); if k < rest then rest else k + 1);
      NextIdLeast(keys - {k}, bound);
    }
  }

  // ---------------------------------------------------------------- incidents

  function KeyOf(identity: string, attributed: bool, capable: bool, incident: Incident): IncidentKey
  {
    IncidentKey(identity, capable, attributed, incident.run, incident.id)
  }

  /** Two reported incidents are one exactly when their run and id and their reports' identity, attribution and
      capability agree. */
  lemma KeyIdentifies(identity: string, attributed: bool, capable: bool, incident: Incident, identity': string,
                      attributed': bool, capable': bool, incident': Incident)
    ensures KeyOf(identity, attributed, capable, incident) == KeyOf(identity', attributed', capable', incident')
            <==> && identity == identity' && attributed == attributed' && capable == capable'
                 && incident.run == incident'.run && incident.id == incident'.id
  {
  }

  /** The upsert: a later report never takes an incident from an earlier runtime row. */
  function PutIncident(table: Incidents, key: IncidentKey, id: nat, ordinal: nat, body: Body): (Incidents, nat)
  {
    if key !in table || id < table[key].runtime then (table[key := Owned(id, ordinal, body)], 1) else (table, 0)
  }

  function PutIncidents(table: Incidents, id: nat, identity: string, attributed: bool, capable: bool,
                        list: seq<Incident>): (Incidents, nat)
  {
    if list == [] then (table, 0)
    else
      var n := |list| - 1;
      var (rest, stored) := PutIncidents(table, id, identity, attributed, capable, list[..n]);
      var (next, one) := PutIncident(rest, KeyOf(identity, attributed, capable, list[n]), id, n, list[n].body);
      (next, stored + one)
  }

  // ---------------------------------------------------------------- records

  ghost predicate UniqueBodies(records: Records)
  {
    forall i, j :: i in records && j in records && records[i].body == records[j].body ==> i == j
  }

  ghost predicate HasBody(records: Records, body: Body)
  {
    exists id :: id in records && records[id].body == body
  }

  ghost function IdOf(records: Records, body: Body): (id: nat)
    ensures HasBody(records, body) ==> id in records && records[id].body == body
    ensures !HasBody(records, body) ==> id !in records
  {
    if HasBody(records, body) then var id :| id in records && records[id].body == body; id
    else NextId(records.Keys)
  }

  /** INSERT ... ON CONFLICT(digest) DO UPDATE SET uses = uses + n. */
  ghost function Share(records: Records, body: Body, uses: nat): Records
  {
    var id := IdOf(records, body);
    if id in records then records[id := records[id].(uses := records[id].uses + uses)]
    else records[id := Shared(body, uses)]
  }

  ghost function ShareAll(records: Records, list: seq<Body>): (Records, seq<nat>)
  {
    if list == [] then (records, [])
    else
      var n := |list| - 1;
      var (rest, ids) := ShareAll(records, list[..n]);
      (Share(rest, list[n], 1), ids + [IdOf(rest, list[n])])
  }

  // ---------------------------------------------------------------- the per-row normaliser

  /** normalizeRuntimeEvidence without caches: incidents move to their table, records become references. */
  ghost function Normalise(t: Tables, id: nat, identity: string, attributed: bool, p: Payload): (Tables, Payload)
  {
    var (incidents, stored) :=
      if p.incidents.IncidentList?
          then PutIncidents(t.incidents, id, identity, attributed, p.capable, p.incidents.incidents)
      else (t.incidents, 0);
    var q := if p.incidents.IncidentList? then p.(incidents := NoIncidents, external := p.external || stored > 0)
        else p;
    match p.records
    case NullRecords => (t.(incidents := incidents), q.(records := NoRecords, refs := NullRefs))
    case RecordList(list) =>
      var (records, ids) := ShareAll(t.records, list);
      (Tables(t.runtime, records, incidents), q.(records := NoRecords, refs := RefList(ids)))
    case _ => (t.(incidents := incidents), q)
  }

  // ---------------------------------------------------------------- transactions

  datatype Report = Report(identity: string, attributed: bool, payload: Payload)

  datatype Action =
    | Record(report: Report)              // RecordRuntimeEvidence
    | Legacy(report: Report)              // a row written before rows were normalised
    | NormaliseRow(id: nat)               // one row of the compactor
    | Prune(ids: seq<nat>)                // one batch of pruneArchivedRuntimeEvidence

  ghost function RecordReport(t: Tables, report: Report): Tables
  {
    var id := NextId(t.runtime.Keys);
    var (next, p) := Normalise(t, id, report.identity, report.attributed, report.payload);
    next.(runtime := t.runtime[id := Row(report.identity, report.attributed, p, report.payload)])
  }

  ghost function NormaliseOne(t: Tables, id: nat): Tables
  {
    if id !in t.runtime then t
    else
      var row := t.runtime[id];
      var (next, p) := Normalise(t, id, row.identity, row.attributed, row.payload);
      next.(runtime := t.runtime[id := row.(payload := p)])
  }

  function Refs(p: Payload): seq<nat>
  {
    if p.refs.RefList? then p.refs.ids else []
  }

  function PruneRow(t: Tables, id: nat): Tables
  {
    if id !in t.runtime then t
    else
      var refs := Refs(t.runtime[id].payload);
      Tables(t.runtime - {id},
             map r | r in t.records :: t.records[r].(uses := t.records[r].uses - multiset(refs)[r]),
             map key | key in t.incidents && t.incidents[key].runtime != id :: t.incidents[key])
  }

  function PruneRows(t: Tables, ids: seq<nat>): (u: Tables)
    ensures u.records.Keys == t.records.Keys
  {
    if ids == [] then t else PruneRow(PruneRows(t, ids[..|ids| - 1]), ids[|ids| - 1])
  }

  function DropUnused(records: Records): Records
  {
    map r | r in records && records[r].uses > 0 :: records[r]
  }

  function PruneBatch(t: Tables, ids: seq<nat>): Tables
  {
    var pruned := PruneRows(t, ids);
    pruned.(records := DropUnused(pruned.records))
  }

  ghost function Act(t: Tables, action: Action): Tables
  {
    match action
    case Record(report) => RecordReport(t, report)
    case Legacy(report) => t.(runtime := t.runtime[NextId(t.runtime.Keys) := Row(report.identity, report.attributed,
        report.payload, report.payload)])
    case NormaliseRow(id) => NormaliseOne(t, id)
    case Prune(ids) => PruneBatch(t, ids)
  }

  ghost function ActAll(t: Tables, actions: seq<Action>): Tables
  {
    if actions == [] then t else Act(ActAll(t, actions[..|actions| - 1]), actions[|actions| - 1])
  }

  // ---------------------------------------------------------------- expansion

  function Bodies(records: Records, ids: seq<nat>): seq<Body>
    requires forall i :: 0 <= i < |ids| ==> ids[i] in records
  {
    seq(|ids|, i requires 0 <= i < |ids| => records[ids[i]].body)
  }

  /** What expandRuntimeEvidence puts back as profile_records. */
  function ExpandRecords(records: Records, p: Payload): Result<RecordField>
  {
    match p.refs
    case NoRefs => Ok(p.records)
    case NullRefs => Ok(NullRecords)
    case OtherRefs => Err
    case RefList(ids) =>
      if forall i :: 0 <= i < |ids| ==> ids[i] in records
      then Ok(RecordList(Bodies(records, ids)))
      else Err
  }

  /** The incidents one row expands to. */
  ghost function ExpandIncidents(t: Tables, id: nat): set<IncidentKey>
    requires id in t.runtime
  {
    if t.runtime[id].payload.external then set key | key in t.incidents && t.incidents[key].runtime == id else {}
  }
}

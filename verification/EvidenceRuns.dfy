/** Whole runs of evidence transactions, read from the reports that were made: which rows there are, what each expands
    to, and where each reported incident is kept. */
module EvidenceRuns {
  import opened Basics
  import opened EvidenceTables
  import opened EvidenceCounts

  /** The reports whose rows are left, by row id: each gets the least id above all that are left. */
  ghost function Journal(actions: seq<Action>): map<nat, Report>
  {
    if actions == [] then map[]
    else
      var rest := Journal(actions[..|actions| - 1]);
      match actions[|actions| - 1]
      case Record(report) => rest[NextId(rest.Keys) := report]
      case Legacy(report) => rest[NextId(rest.Keys) := report]
      case NormaliseRow(_) => rest
      case Prune(ids) => rest - (set id | id in ids)
  }

  /** The rows that were recorded normalised, or were normalised since. */
  ghost function Tidied(actions: seq<Action>): set<nat>
  {
    if actions == [] then {}
    else
      var rest, journal := Tidied(actions[..|actions| - 1]), Journal(actions[..|actions| - 1]);
      match actions[|actions| - 1]
      case Record(_) => rest + {NextId(journal.Keys)}
      case Legacy(_) => rest - {NextId(journal.Keys)}
      case NormaliseRow(id) => rest + {id}
      case Prune(ids) => rest - (set id | id in ids)
  }

  predicate OfReport(row: Row, report: Report)
  {
    row.identity == report.identity && row.attributed == report.attributed && row.reported == report.payload
  }

  /** A tidy row has nothing inline that could be moved out; any other is stored as it was reported. */
  predicate Stored(row: Row, tidy: bool)
  {
    if tidy then
      && !row.payload.incidents.IncidentList?
      && !row.payload.records.RecordList? && !row.payload.records.NullRecords?
    else row.payload == row.reported
  }

  ghost predicate RowsFollow(t: Tables, journal: map<nat, Report>, tidied: set<nat>)
  {
    t.runtime.Keys == journal.Keys && forall id :: id in journal ==> RowFollows(t, journal, tidied, id)
  }

  ghost predicate RowFollows(t: Tables, journal: map<nat, Report>, tidied: set<nat>, id: nat)
    requires id in journal
  {
    id in t.runtime && OfReport(t.runtime[id], journal[id]) && Stored(t.runtime[id], id in tidied)
  }

  lemma NormaliseStores(t: Tables, id: nat, identity: string, attributed: bool, p: Payload)
    ensures var (next, q) := Normalise(t, id, identity, attributed, p);
            && next.runtime == t.runtime
            && !q.incidents.IncidentList? && !q.records.RecordList? && !q.records.NullRecords?
  {
  }

  lemma {:induction false} PruneRowsLeave(t: Tables, ids: seq<nat>)
    ensures PruneRows(t, ids).runtime == t.runtime - (set id | id in ids)
    decreases |ids|
  {
    if ids != [] {
      var n := |ids| - 1;
      PruneRowsLeave(t, ids[..n]);
      assert ids == ids[..n] + [ids[n]];
    }
  }

  lemma FollowStep(t: Tables, journal: map<nat, Report>, tidied: set<nat>, action: Action)
    requires RowsFollow(t, journal, tidied)
    ensures var u := Act(t, action);
            match action
            case Record(report) =>
              RowsFollow(u, journal[NextId(journal.Keys) := report], tidied + {NextId(journal.Keys)})
            case Legacy(report) =>
              RowsFollow(u, journal[NextId(journal.Keys) := report], tidied - {NextId(journal.Keys)})
            case NormaliseRow(id) => RowsFollow(u, journal, tidied + {id})
            case Prune(ids) => RowsFollow(u, journal - (set id | id in ids), tidied - (set id | id in ids))
  {
    forall id | id in journal ensures id in t.runtime { assert RowFollows(t, journal, tidied, id); }
    match action
    case Record(report) =>
      NormaliseStores(t, NextId(journal.Keys), report.identity, report.attributed, report.payload);
      AddedFollows(t, Act(t, action), journal, tidied, tidied + {NextId(journal.Keys)}, report);
    case Legacy(report) => AddedFollows(t, Act(t, action), journal, tidied, tidied - {NextId(journal.Keys)}, report);
    case NormaliseRow(id) =>
      if id in t.runtime {
        NormaliseStores(t, id, t.runtime[id].identity, t.runtime[id].attributed, t.runtime[id].payload);
      }
      NormalisedFollows(t, Act(t, action), journal, tidied, id);
    case Prune(ids) =>
      PruneRowsLeave(t, ids);
      PrunedFollows(t, Act(t, action), journal, tidied, ids);
  }

  lemma AddedFollows(t: Tables, u: Tables, journal: map<nat, Report>, tidied: set<nat>, next: set<nat>, report: Report)
    requires RowsFollow(t, journal, tidied)
    requires var id := NextId(journal.Keys);
             && u.runtime.Keys == t.runtime.Keys + {id} && id in u.runtime
             && (forall j :: j in t.runtime && j != id ==> u.runtime[j] == t.runtime[j])
             && (forall j :: j != id ==> (j in next <==> j in tidied))
             && OfReport(u.runtime[id], report) && Stored(u.runtime[id], id in next)
    ensures RowsFollow(u, journal[NextId(journal.Keys) := report], next)
  {
    var id := NextId(journal.Keys);
    var now := journal[id := report];
    forall j | j in now ensures RowFollows(u, now, next, j) {
      if j != id { assert RowFollows(t, journal, tidied, j); }
    }
  }

  lemma NormalisedFollows(t: Tables, u: Tables, journal: map<nat, Report>, tidied: set<nat>, id: nat)
    requires RowsFollow(t, journal, tidied) && u.runtime.Keys == t.runtime.Keys
    requires forall j :: j in t.runtime && j != id ==> u.runtime[j] == t.runtime[j]
    requires id in t.runtime ==> u.runtime[id] == t.runtime[id].(payload := u.runtime[id].payload)
    requires id in t.runtime ==> Stored(u.runtime[id], true)
    ensures RowsFollow(u, journal, tidied + {id})
  {
    forall j | j in journal ensures RowFollows(u, journal, tidied + {id}, j) {
      assert RowFollows(t, journal, tidied, j);
    }
  }

  lemma PrunedFollows(t: Tables, u: Tables, journal: map<nat, Report>, tidied: set<nat>, ids: seq<nat>)
    requires RowsFollow(t, journal, tidied) && u.runtime == t.runtime - (set id | id in ids)
    ensures RowsFollow(u, journal - (set id | id in ids), tidied - (set id | id in ids))
  {
    var gone := set id | id in ids;
    forall j | j in journal - gone ensures RowFollows(u, journal - gone, tidied - gone, j) {
      assert RowFollows(t, journal, tidied, j);
    }
  }

  /** In every run, clean or not, there is a row for each report that was not pruned, under its own id, with the
      identity, attribution and payload reported; it is normalised if it was recorded so or normalised since, and
      otherwise stored as reported. */
  lemma {:induction false} RowsAreTheReports(actions: seq<Action>)
    ensures RowsFollow(ActAll(EMPTY_TABLES, actions), Journal(actions), Tidied(actions))
    decreases |actions|
  {
    if actions != [] {
      var rest := actions[..|actions| - 1];
      RowsAreTheReports(rest);
      FollowStep(ActAll(EMPTY_TABLES, rest), Journal(rest), Tidied(rest), actions[|actions| - 1]);
    }
  }

  // ---------------------------------------------------------------- what a reader gets back

  /** The row expands to the records of the payload, in order and with repeats, and has its other fields. */
  ghost predicate ReadsAs(t: Tables, id: nat, p: Payload)
  {
    && id in t.runtime && ExpandRecords(t.records, t.runtime[id].payload) == Ok(p.records)
    && t.runtime[id].payload.capable == p.capable && t.runtime[id].payload.rest == p.rest
  }

  lemma ReadsBack(t: Tables, journal: map<nat, Report>, tidied: set<nat>, id: nat)
    requires Faithful(t) && RowsFollow(t, journal, tidied) && id in journal
    ensures ReadsAs(t, id, journal[id].payload)
  {
    assert RowFollows(t, journal, tidied, id);
    ExpandsFaithfully(t, id);
    assert RowFaithful(t.records, t.runtime[id]);
  }

  /** In every run of clean reports every report that was not pruned reads back from its row. */
  lemma EveryReportReadsBack(actions: seq<Action>)
    requires forall i :: 0 <= i < |actions| ==> Clean(actions[i])
    ensures var t := ActAll(EMPTY_TABLES, actions);
            && t.runtime.Keys == Journal(actions).Keys
            && forall id :: id in Journal(actions) ==> ReadsAs(t, id, Journal(actions)[id].payload)
  {
    RowsAreTheReports(actions);
    RunKeepsInv(actions);
    var t, journal := ActAll(EMPTY_TABLES, actions), Journal(actions);
    forall id | id in journal ensures ReadsAs(t, id, journal[id].payload) {
      ReadsBack(t, journal, Tidied(actions), id);
    }
  }

  /** The incident is this one of this report. */
  predicate Mentions(report: Report, i: nat, key: IncidentKey)
  {
    && report.payload.incidents.IncidentList? && i < |report.payload.incidents.incidents|
    && report.identity == key.identity && report.attributed == key.attributed && report.payload.capable == key.capable
    && report.payload.incidents.incidents[i].run == key.run && report.payload.incidents.incidents[i].id == key.incident
  }

  /** The stored body is the first one its owner's report has for this run and id. */
  ghost predicate FirstIn(journal: map<nat, Report>, key: IncidentKey, owned: Owned)
  {
    && owned.runtime in journal && Mentions(journal[owned.runtime], owned.ordinal, key)
    && journal[owned.runtime].payload.incidents.incidents[owned.ordinal].body == owned.body
    && forall i: nat :: i < owned.ordinal ==> !Mentions(journal[owned.runtime], i, key)
  }

  lemma OwnerMentions(t: Tables, journal: map<nat, Report>, tidied: set<nat>, key: IncidentKey)
    requires RowsFollow(t, journal, tidied) && key in t.incidents && OwnerSound(t.runtime, key, t.incidents[key])
    ensures FirstIn(journal, key, t.incidents[key])
  {
    var owned := t.incidents[key];
    assert RowFollows(t, journal, tidied, owned.runtime);
    var row := t.runtime[owned.runtime];
    forall i: nat | i < owned.ordinal ensures !Mentions(journal[owned.runtime], i, key) {
      assert RowKey(row, row.reported.incidents.incidents[i]) != key;
    }
  }

  /** In every run of clean reports each stored incident was reported: its owner's report has it, with this run, id and
      body, first at this place, and it appears in the expansion of its owner and of no other row. */
  lemma StoredIncidentsWereReported(actions: seq<Action>, key: IncidentKey)
    requires forall i :: 0 <= i < |actions| ==> Clean(actions[i])
    requires key in ActAll(EMPTY_TABLES, actions).incidents
    ensures var t := ActAll(EMPTY_TABLES, actions);
            && FirstIn(Journal(actions), key, t.incidents[key])
            && forall id :: ExpandsIn(t, key, id) <==> id == t.incidents[key].runtime
  {
    var t := ActAll(EMPTY_TABLES, actions);
    RunKeepsInv(actions);
    RowsAreTheReports(actions);
    EachIncidentOnce(actions, key);
    assert OwnerSound(t.runtime, key, t.incidents[key]);
    OwnerMentions(t, Journal(actions), Tidied(actions), key);
  }

  /** And without pruning every reported incident of a tidy row is stored: exactly this run and id, for its identity,
      attribution and capability, with a body reported for it, in a row no later than its own. */
  lemma ReportedIncidentsAreStored(actions: seq<Action>, id: nat, i: nat, key: IncidentKey)
    requires forall j :: 0 <= j < |actions| ==> Clean(actions[j]) && !actions[j].Prune?
    requires id in Journal(actions) && id in Tidied(actions) && Mentions(Journal(actions)[id], i, key)
    ensures var t := ActAll(EMPTY_TABLES, actions);
            && key in t.incidents && t.incidents[key].runtime <= id
            && FirstIn(Journal(actions), key, t.incidents[key]) && ExpandsIn(t, key, t.incidents[key].runtime)
  {
    var t := ActAll(EMPTY_TABLES, actions);
    RunKeepsInv(actions);
    RowsAreTheReports(actions);
    MentionIsStored(t, Journal(actions), Tidied(actions), id, i, key);
    StoredIncidentsWereReported(actions, key);
  }

  lemma MentionIsStored(t: Tables, journal: map<nat, Report>, tidied: set<nat>, id: nat, i: nat, key: IncidentKey)
    requires Faithful(t) && OwnersLeast(t) && RowsFollow(t, journal, tidied)
    requires id in journal && id in tidied && Mentions(journal[id], i, key)
    ensures key in t.incidents && t.incidents[key].runtime <= id
  {
    assert RowFollows(t, journal, tidied, id);
    var row := t.runtime[id];
    assert RowFaithful(t.records, row);
    assert RowKey(row, row.reported.incidents.incidents[i]) == key;
    assert Reports(row, key);
  }

  /** Two incidents of one report that differ in run or id are kept apart. */
  lemma DifferentIncidentsBothStored(report: Report, a: nat, b: nat, keyA: IncidentKey, keyB: IncidentKey)
    requires NoReserved(report.payload) && Mentions(report, a, keyA) && Mentions(report, b, keyB) && keyA != keyB
    ensures var t := ActAll(EMPTY_TABLES, [Record(report)]);
            keyA in t.incidents && keyB in t.incidents
  {
    var actions := [Record(report)];
    assert actions[..0] == [] && Journal(actions[..0]) == map[];
    var id := NextId({});
    assert Journal(actions[..0]).Keys == {};
    assert Journal(actions) == map[id := report] && id in Tidied(actions);
    ReportedIncidentsAreStored(actions, id, a, keyA);
    ReportedIncidentsAreStored(actions, id, b, keyB);
  }
}

/** Deployment rows: recording a ready deployment, listing and clearing pending rollouts, the latest ready row.
    Ids come from AUTOINCREMENT, so none is used twice. */
module Deployments {
  import opened Basics

  datatype Status = Building | Ready | Failed

  datatype Version = Version(source: string, git: string, litestream: string, workload: string)

  datatype Row = Row(version: Version, image: string, status: Status, startedAt: nat, pending: bool, gen: nat)

  type Rows = map<nat, Row>

  /** A rollout: the row and generation it was recorded as, and what it rolls out. */
  datatype Target = Target(id: nat, gen: nat, source: string, git: string, litestream: string, image: string)

  function TargetOf(rows: Rows, id: nat): Target
    requires id in rows
  {
    var row := rows[id];
    Target(id, row.gen, row.version.source, row.version.git, row.version.litestream, row.image)
  }

  // ---------------------------------------------------------------- newest first

  predicate Later(rows: Rows, a: nat, b: nat)
    requires a in rows && b in rows
  {
    rows[a].startedAt > rows[b].startedAt || (rows[a].startedAt == rows[b].startedAt && a > b)
  }

  /** The first of some rows by start time, then id, newest first. */
  ghost predicate IsNewest(rows: Rows, ids: set<nat>, id: nat)
    requires ids <= rows.Keys
  {
    id in ids && forall other :: other in ids && other != id ==> Later(rows, id, other)
  }

  method Newest(rows: Rows, ids: set<nat>) returns (newest: Option<nat>)
    requires ids <= rows.Keys
    ensures newest.None? <==> ids == {}
    ensures newest.Some? ==> IsNewest(rows, ids, newest.value)
  {
    newest := None;
    var seen, rest := {}, ids;
    while rest != {}
      invariant seen + rest == ids && seen !! rest && (newest.None? <==> seen == {})
      invariant newest.Some? ==> IsNewest(rows, seen, newest.value)
      decreases rest
    {
      var id :| id in rest;
      if newest.None? || Later(rows, id, newest.value) { newest := Some(id); }
      seen, rest := seen + {id}, rest - {id};
    }
  }

  function OfVersion(rows: Rows, v: Version): set<nat>
  {
    set id | id in rows && rows[id].version == v
  }

  /** An empty source stands for all of them. */
  function ReadyOf(rows: Rows, source: string): set<nat>
  {
    set id | id in rows && rows[id].status.Ready? && (source == "" || rows[id].version.source == source)
  }

  ghost predicate IsLatest(rows: Rows, source: string, id: nat)
  {
    IsNewest(rows, ReadyOf(rows, source), id)
  }

  /** The target is still what its source should run: the latest ready row has its image and both SHAs, or
      there is none. The workload is not compared. */
  ghost predicate Current(rows: Rows, t: Target)
  {
    forall id :: IsLatest(rows, t.source, id) ==> Matches(rows, id, t)
  }

  predicate Matches(rows: Rows, id: nat, t: Target)
    requires id in rows
  {
    rows[id].image == t.image && rows[id].version.git == t.git && rows[id].version.litestream == t.litestream
  }

  /** The latest row is ready, of the source, and started last, the greater id first among rows that started together;
      without a source all rows compete. */
  lemma LatestMeans(rows: Rows, source: string, id: nat)
    ensures IsLatest(rows, source, id) <==>
              && id in rows && rows[id].status.Ready? && (source == "" || rows[id].version.source == source)
              && forall other :: other in rows && other != id && rows[other].status.Ready?
                                 && (source == "" || rows[other].version.source == source) ==>
                   rows[other].startedAt < rows[id].startedAt
                   || (rows[other].startedAt == rows[id].startedAt && other < id)
  {
    var ready := ReadyOf(rows, source);
    if IsLatest(rows, source, id) {
      forall other | other in rows && other != id && rows[other].status.Ready?
                     && (source == "" || rows[other].version.source == source)
        ensures Later(rows, id, other)
      {
        assert other in ready;
      }
    }
  }

  // ---------------------------------------------------------------- the writes

  /** A record goes to the newest row of its version, or to a new one. */
  ghost predicate Chooses(rows: Rows, next: nat, v: Version, id: nat)
  {
    if OfVersion(rows, v) == {} then id == next else IsNewest(rows, OfVersion(rows, v), id)
  }

  function Put(rows: Rows, v: Version, image: string, now: nat, id: nat): Rows
  {
    rows[id := if id in rows then rows[id].(status := Ready, image := image, pending := true, gen := rows[id].gen + 1)
               else Row(v, image, Ready, now, true, 1)]
  }

  function Cleared(rows: Rows, id: nat, gen: nat): Rows
  {
    if id in rows && rows[id].gen == gen then rows[id := rows[id].(pending := false)] else rows
  }

  /** The rows a restart resumes. */
  predicate Resumable(rows: Rows, id: nat)
  {
    id in rows && rows[id].status.Ready? && rows[id].pending
  }

  /** Every ready pending row once, by id, with what its rollout needs. */
  ghost predicate IsPendingList(rows: Rows, list: seq<Target>)
  {
    && (forall i :: 0 <= i < |list| ==> Resumable(rows, list[i].id) && list[i] == TargetOf(rows, list[i].id))
    && (forall i, j :: 0 <= i < j < |list| ==> list[i].id < list[j].id)
    && (forall id: nat :: Resumable(rows, id) ==> exists i :: 0 <= i < |list| && list[i].id == id)
  }

  class DeploymentDB {
    var rows: Rows
    var next: nat

    ghost predicate Valid()
      reads this
    {
      next > 0 && forall id :: id in rows ==> 0 < id < next
    }

    constructor ()
      ensures Valid() && rows == map[] && next == 1
    {
      rows, next := map[], 1;
    }

    /** UpsertReadyDeploymentContext, past the repository check. */
    method UpsertReady(v: Version, image: string, now: nat) returns (id: nat, gen: nat)
      requires Valid()
      modifies this
      ensures Valid() && old(next) <= next
      ensures Chooses(old(rows), old(next), v, id)
      ensures rows == Put(old(rows), v, image, now, id) && gen == rows[id].gen && id != 0
    {
      var existing := Newest(rows, OfVersion(rows, v));
      if existing.Some? {
        id := existing.value;
        rows := rows[id := rows[id].(status := Ready, image := image, pending := true, gen := rows[id].gen + 1)];
        gen := rows[id].gen;
      } else {
        id, gen := next, 1;
        rows := rows[id := Row(v, image, Ready, now, true, 1)];
        next := id + 1;
      }
    }

    /** ClearRolloutPending: only while the row is still at this generation. */
    method ClearRolloutPending(id: nat, gen: nat)
      requires Valid()
      modifies this`rows
      ensures Valid() && rows == Cleared(old(rows), id, gen)
    {
      if id in rows && rows[id].gen == gen { rows := rows[id := rows[id].(pending := false)]; }
    }

    /** ListRolloutPendingDeployments: every resumable row once, by id. */
    method ListRolloutPending() returns (list: seq<Target>)
      requires Valid()
      ensures IsPendingList(rows, list)
    {
      list := [];
      var n := 0;
      while n < next
        invariant forall i :: 0 <= i < |list| ==>
            Resumable(rows, list[i].id) && list[i] == TargetOf(rows, list[i].id) && list[i].id < n
        invariant forall i, j :: 0 <= i < j < |list| ==> list[i].id < list[j].id
        invariant forall id: nat :: Resumable(rows, id) && id < n ==> exists i :: 0 <= i < |list| && list[i].id == id
      {
        if Resumable(rows, n) {
          ghost var before := list;
          list := list + [TargetOf(rows, n)];
          assert list[|before|].id == n;
          forall id: nat | Resumable(rows, id) && id < n ensures exists i :: 0 <= i < |list| && list[i].id == id {
            var i :| 0 <= i < |before| && before[i].id == id;
            assert list[i].id == id;
          }
        }
        n := n + 1;
      }
    }

    /** latestReadyDeploymentMatches. */
    method LatestReadyMatches(t: Target) returns (current: bool)
      ensures current <==> Current(rows, t)
      ensures current <==> forall id :: IsLatest(rows, t.source, id) ==>
                rows[id].image == t.image && rows[id].version.git == t.git
                && rows[id].version.litestream == t.litestream
    {
      var latest := Newest(rows, ReadyOf(rows, t.source));
      if latest.None? {
        return true;
      }
      assert IsLatest(rows, t.source, latest.value);
      return Matches(rows, latest.value, t);
    }
  }
}

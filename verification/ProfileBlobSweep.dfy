/** The concurrent mark-and-sweep collector of the blob table, as a transition system.

    Writers and readers take the sweep lock shared ("holders"); the collector takes it exclusively to
    start pinning, to delete one batch and to finish, and takes no lock at all while it scans the four
    columns. Journal triggers, row deletions and plain writes take no lock either. Every SQL statement or
    transaction and every cache operation under the cache mutex is one step. */
module ProfileBlobSweep {
  import opened Basics
  import opened ProfileSnapshot
  import opened ProfileBlobStore

  datatype Column = Workers | Verifications | Journal | Events

  datatype RowKey = RowKey(column: Column, n: nat)

  /** A row: the JSON in its column, what that JSON stands for, and, for events and their journal, the
      event id and time that identify the journal entry together with the JSON. */
  datatype Row = Row(stored: Fields, content: Fields, event: nat, at: nat)

  /** Someone inside the shared lock: blobs read through rows (`seen`), blobs obtained by a store whose
      pin is still to come (`owed`), and blobs stored and pinned (`kept`). */
  datatype Holder = Holder(seen: Blobs, owed: Blobs, kept: Blobs)

  datatype Sweep =
    | Idle
    | Scanning(done: nat, marked: set<Id>, maxId: nat)
    | Deleting(marked: set<Id>, maxId: nat, rest: seq<Id>, cleared: bool)

  /** A caller that stores a blob without the lock: it has inserted the blob and is about to enter it into the cache,
      or it has the id and is about to pin it. */
  datatype Caller = Inserted(id: Id, body: Raw) | Ready(id: Id)

  datatype State = State(blobs: Blobs, cache: Cache, pinned: set<Id>, sweep: Sweep, rows: map<RowKey, Row>,
                         holders: map<nat, Holder>, callers: map<nat, Caller>)

  const SCAN_ORDER: seq<Column> := [Workers, Verifications, Journal, Events]

  const DELETE_BATCH_SIZE: nat := 500

  datatype Step =
    | Acquire(h: nat)
    | Release(h: nat)
    | StoreHit(h: nat, body: Raw)                       // digest found in the cache
    | StoreInsert(h: nat, body: Raw, id: Id)            // INSERT ... ON CONFLICT(digest)
    | CacheBlob(h: nat, id: Id, byDigest: bool)         // cache.store
    | Pin(h: nat, id: Id)                               // cache.pin
    | ReadRow(h: nat, key: RowKey)                      // a reader meets a row's references
    | WriteRow(h: nat, key: RowKey, original: Fields, stored: Fields)
    | RecordEvent(h: nat, e: nat, at: nat, original: Fields, stored: Fields, j: nat)
    | TouchEvent(h: nat, e: nat, at: nat, j: nat)       // occurrences-only update: re-fires the journal trigger
    | JournalVerification(w: nat, v: nat)               // trigger copy of workers.last_runtime_json
    | WritePlain(key: RowKey, fields: Fields)            // a row written without compaction, free of references
    | PlainEvent(e: nat, at: nat, fields: Fields, j: nat)
    | DeleteRow(key: RowKey)
    | StartSweep(maxId: nat)
    | ScanColumn
    | ListCandidates(rest: seq<Id>)
    | DeleteSome
    | FinishSweep
    | Restart
    | LooseHit(c: nat, body: Raw)                       // a store without the lock: found in the cache,
    | LooseInsert(c: nat, body: Raw, id: Id)            // or inserted
    | LooseCache(c: nat)                                // and cached,
    | LoosePin(c: nat)                                  // then pinned

  // ---------------------------------------------------------------- reading a state

  predicate Pinning(s: State)
  {
    !s.sweep.Idle?
  }

  function Marked(s: State): set<Id>
  {
    if s.sweep.Idle? then {} else s.sweep.marked
  }

  predicate Scanned(order: seq<Column>, s: State, column: Column)
  {
    match s.sweep
    case Idle => false
    case Scanning(done, _, _) => column in order[..if done <= |order| then done else |order|]
    case Deleting(_, _, _, _) => true
  }

  ghost predicate Owed(s: State, id: Id)
  {
    exists h :: h in s.holders && id in s.holders[h].owed
  }

  /** Blobs that callers without the lock have yet to pin. */
  function LooseIds(s: State): set<Id>
  {
    set c | c in s.callers :: s.callers[c].id
  }

  /** The journal's UNIQUE(id, created_at, details). */
  ghost predicate Journaled(s: State, row: Row)
  {
    exists key :: key in s.rows && key.column == Journal
                  && s.rows[key].event == row.event && s.rows[key].at == row.at && s.rows[key].stored == row.stored
  }

  ghost function JournalCopy(s: State, row: Row, j: nat): map<RowKey, Row>
  {
    if Journaled(s, row) then s.rows else s.rows[RowKey(Journal, j) := row]
  }

  ghost function Marks(s: State, column: Column): set<Id>
  {
    set key, id | key in s.rows && key.column == column && id in RefIds(s.rows[key].stored) :: id
  }

  function Batch(rest: seq<Id>): seq<Id>
  {
    if |rest| <= DELETE_BATCH_SIZE then rest else rest[..DELETE_BATCH_SIZE]
  }

  // ---------------------------------------------------------------- steps

  ghost predicate Enabled(order: seq<Column>, s: State, step: Step)
  {
    match step
    case Acquire(h) => h !in s.holders
    case Release(h) => h in s.holders && s.holders[h].owed == map[]
    case StoreHit(h, body) => h in s.holders && body in s.cache.ids
    case StoreInsert(h, body, id) =>
      h in s.holders && Insertable(s, body, id)
    case CacheBlob(h, id, byDigest) =>
      h in s.holders && (id in s.holders[h].owed || (id in s.holders[h].seen && !byDigest)) && id in s.blobs
    case Pin(h, id) => h in s.holders && id in s.holders[h].owed
    case ReadRow(h, key) => h in s.holders && key in s.rows
    case WriteRow(h, key, original, stored) =>
      h in s.holders && !key.column.Events? && IsCompaction(original, stored, s.holders[h].kept)
    case RecordEvent(h, e, at, original, stored, j) =>
      && h in s.holders && IsCompaction(original, stored, s.holders[h].kept) && RowKey(Journal, j) !in s.rows
      && (RowKey(Events, e) in s.rows ==> s.rows[RowKey(Events, e)].at <= at)
    case TouchEvent(h, e, at, j) =>
      && h in s.holders && RowKey(Events, e) in s.rows && at < s.rows[RowKey(Events, e)].at
      && RowKey(Journal, j) !in s.rows
    case JournalVerification(w, v) => RowKey(Workers, w) in s.rows && RowKey(Verifications, v) !in s.rows
    case WritePlain(key, fields) => (key.column.Workers? || key.column.Verifications?) && fields.Keys !! REF_KEYS
    case PlainEvent(e, at, fields, j) =>
      fields.Keys !! REF_KEYS && RowKey(Events, e) !in s.rows && RowKey(Journal, j) !in s.rows
    case DeleteRow(key) => true
    case StartSweep(maxId) => s.sweep.Idle? && s.holders == map[] && forall id :: id in s.blobs ==> id <= maxId
    case ScanColumn => s.sweep.Scanning? && s.sweep.done < |order|
    case ListCandidates(rest) =>
      && s.sweep.Scanning? && s.sweep.done == |order|
      && forall id :: id in rest <==> id in s.blobs && id <= s.sweep.maxId && id !in s.sweep.marked
    case DeleteSome => s.sweep.Deleting? && s.sweep.rest != [] && s.holders == map[]
    case FinishSweep => !s.sweep.Idle? && s.holders == map[]
    case Restart => true
    case LooseHit(c, body) => c !in s.callers && body in s.cache.ids
    case LooseInsert(c, body, id) => c !in s.callers && Insertable(s, body, id)
    case LooseCache(c) => c in s.callers && s.callers[c].Inserted?
    case LoosePin(c) => c in s.callers && s.callers[c].Ready?
  }

  /** The row an upsert by digest returns: the one with this body, or an unused id. */
  ghost predicate Insertable(s: State, body: Raw, id: Id)
  {
    if id in s.blobs then s.blobs[id] == body else forall i :: i in s.blobs ==> s.blobs[i] != body
  }

  ghost function Apply(order: seq<Column>, s: State, step: Step): State
    requires Enabled(order, s, step)
  {
    match step
    case Acquire(h) => s.(holders := s.holders[h := Holder(map[], map[], map[])])
    case Release(h) => s.(holders := s.holders - {h})
    case StoreHit(h, body) => Owe(s, h, s.cache.ids[body], body)
    case StoreInsert(h, body, id) => Owe(s.(blobs := s.blobs[id := body]), h, id, body)
    case CacheBlob(h, id, byDigest) =>
      s.(cache := CachePut(s.cache, if byDigest then Some(s.blobs[id]) else None, id, s.blobs[id]))
    case Pin(h, id) =>
      var holder := s.holders[h];
      s.(holders := s.holders[h := holder.(owed := holder.owed - {id}, kept := holder.kept[id := holder.owed[id]])],
         pinned := if Pinning(s) then s.pinned + {id} else s.pinned)
    case ReadRow(h, key) =>
      var holder := s.holders[h];
      s.(holders := s.holders[h := holder.(seen := map id | id in s.blobs
          && (id in holder.seen || id in RefIds(s.rows[key].stored)) :: s.blobs[id])])
    case WriteRow(h, key, original, stored) =>
      var (event, at) := if key in s.rows then (s.rows[key].event, s.rows[key].at) else (0, 0);
      s.(rows := s.rows[key := Row(stored, Strip(original), event, at)])
    case RecordEvent(h, e, at, original, stored, j) => Recorded(s, e, Row(stored, Strip(original), e, at), j)
    case TouchEvent(_, e, _, j) => s.(rows := JournalCopy(s, s.rows[RowKey(Events, e)], j))
    case JournalVerification(w, v) => s.(rows := s.rows[RowKey(Verifications, v) := s.rows[RowKey(Workers, w)]])
    case WritePlain(key, fields) => s.(rows := s.rows[key := Row(fields, fields, 0, 0)])
    case PlainEvent(e, at, fields, j) => Recorded(s, e, Row(fields, fields, e, at), j)
    case DeleteRow(key) => s.(rows := s.rows - {key})
    case StartSweep(maxId) => s.(sweep := Scanning(0, {}, maxId), pinned := {})
    case ScanColumn => s.(sweep := Scanning(s.sweep.done + 1, s.sweep.marked + Marks(s, order[s.sweep.done]),
        s.sweep.maxId))
    case ListCandidates(rest) => s.(sweep := Deleting(s.sweep.marked, s.sweep.maxId, rest, false))
    case DeleteSome =>
      var batch := Batch(s.sweep.rest);
      s.(blobs := s.blobs - ((set id | id in batch) - s.pinned),
         cache := if s.sweep.cleared then s.cache else EMPTY_CACHE,
         sweep := Deleting(s.sweep.marked, s.sweep.maxId, s.sweep.rest[|batch|..], true))
    case FinishSweep => s.(sweep := Idle, pinned := {})
    case Restart => State(s.blobs, EMPTY_CACHE, {}, Idle, s.rows, map[], map[])
    case LooseHit(c, body) => s.(callers := s.callers[c := Ready(s.cache.ids[body])])
    case LooseInsert(c, body, id) => s.(blobs := s.blobs[id := body], callers := s.callers[c := Inserted(id, body)])
    case LooseCache(c) =>
      var (id, body) := (s.callers[c].id, s.callers[c].body);
      s.(cache := CachePut(s.cache, Some(body), id, body), callers := s.callers[c := Ready(id)])
    case LoosePin(c) =>
      s.(callers := s.callers - {c}, pinned := if Pinning(s) then s.pinned + {s.callers[c].id} else s.pinned)
  }

  /** An event written, with the journal entry its trigger adds. */
  ghost function Recorded(s: State, e: nat, row: Row, j: nat): State
  {
    s.(rows := JournalCopy(s, row, j)[RowKey(Events, e) := row])
  }

  ghost function Owe(s: State, h: nat, id: Id, body: Raw): State
    requires h in s.holders
  {
    s.(holders := s.holders[h := s.holders[h].(owed := s.holders[h].owed[id := body])])
  }

  // ---------------------------------------------------------------- what a sweep cannot delete

  /** The running sweep will not come to this id: it is newer than the sweep, or not among what is left. */
  predicate OutOfReach(s: State, id: Id)
  {
    match s.sweep
    case Idle => true
    case Scanning(_, _, maxId) => id > maxId
    case Deleting(_, _, rest, _) => id !in rest
  }

  /** The running sweep will not delete this id: marked, pinned, about to be pinned by a holder, or out of reach. */
  ghost predicate Safe(s: State, id: Id)
  {
    id in Marked(s) || id in s.pinned || Owed(s, id) || OutOfReach(s, id)
  }

  ghost predicate AllSafe(s: State, fields: Fields)
  {
    forall id :: id in RefIds(fields) ==> Safe(s, id)
  }

  /** A re-fired journal trigger copies references without pinning them. That is harmless when it adds
      nothing, when the journal is still to be scanned, or when the copied ids are safe anyway. */
  ghost predicate TouchCovered(order: seq<Column>, s: State, e: nat)
    requires RowKey(Events, e) in s.rows
  {
    var row := s.rows[RowKey(Events, e)];
    Journaled(s, row) || !Scanned(order, s, Journal) || AllSafe(s, row.stored)
  }

  predicate Live(s: State, id: Id, body: Raw)
  {
    id in s.blobs && s.blobs[id] == body
  }

  /** A cache entry made without the lock is harmless when the blob is still there and either the sweep will empty
      the cache before it deletes, or it will not delete this blob. */
  ghost predicate LooseCacheCovered(s: State, c: nat)
    requires c in s.callers && s.callers[c].Inserted?
  {
    && Live(s, s.callers[c].id, s.callers[c].body)
    && (s.sweep.Deleting? && s.sweep.cleared ==> Safe(s, s.callers[c].id))
  }

  ghost predicate Allowed(order: seq<Column>, s: State, step: Step)
  {
    && Enabled(order, s, step)
    && (step.TouchEvent? ==> TouchCovered(order, s, step.e))
    && (step.LooseCache? ==> LooseCacheCovered(s, step.c))
  }

  // ---------------------------------------------------------------- invariant

  /** Workers is scanned before the column its trigger copies into, and no column is left out. */
  predicate GoodOrder(order: seq<Column>)
  {
    && (forall column: Column :: column in order)
    && forall i :: 0 <= i < |order| && order[i] == Verifications ==> Workers in order[..i]
  }

  /** Every row expands, through the blob table, to exactly what it stands for. */
  ghost predicate RowsIntact(s: State)
  {
    forall key :: key in s.rows ==> Expand(s.blobs, s.rows[key].stored) == Ok(s.rows[key].content)
  }

  ghost predicate HolderSound(s: State, holder: Holder)
  {
    && Grows(holder.seen, s.blobs) && Grows(holder.owed, s.blobs) && Grows(holder.kept, s.blobs)
    && (Pinning(s) ==> holder.kept.Keys <= s.pinned)
  }

  ghost predicate HoldersSound(s: State)
  {
    forall h :: h in s.holders ==> HolderSound(s, s.holders[h])
  }

  /** References met in columns already scanned are safe. */
  ghost predicate MarksSound(order: seq<Column>, s: State)
  {
    forall key :: key in s.rows && Scanned(order, s, key.column) ==> AllSafe(s, s.rows[key].stored)
  }

  /** What remains to be deleted is unmarked; once the cache was emptied it refills only with ids that no
      later batch can delete; blobs that came after the scan are pinned, about to be, or loose. */
  ghost predicate SweepSound(order: seq<Column>, s: State)
  {
    match s.sweep
    case Idle => s.pinned == {}
    case Scanning(done, _, maxId) =>
      done <= |order| && forall id :: id in s.blobs && id > maxId ==> id in s.pinned || Owed(s, id) || id in LooseIds(s)
    case Deleting(marked, maxId, rest, cleared) =>
      && (forall id :: id in rest ==> id !in marked)
      && (forall id :: id in s.blobs ==>
            id in marked || id in s.pinned || id in rest || Owed(s, id) || id in LooseIds(s))
      && (cleared ==> forall id :: id in CachedIds(s.cache) ==> Safe(s, id))
      && (cleared ==> forall h, id :: h in s.holders && id in s.holders[h].seen ==> Safe(s, id))
  }

  ghost predicate Inv(order: seq<Column>, s: State)
  {
    && Unique(s.blobs) && CacheAgrees(s.cache, s.blobs)
    && RowsIntact(s) && HoldersSound(s) && MarksSound(order, s) && SweepSound(order, s)
  }

  const EMPTY := State(map[], EMPTY_CACHE, {}, Idle, map[], map[], map[])

  lemma EmptyInv(order: seq<Column>)
    ensures Inv(order, EMPTY)
  {
    EmptyCacheAgrees(map[]);
  }

  // ---------------------------------------------------------------- every allowed step keeps the invariant

  /** A row may be put anywhere when it expands and, in a scanned column, its references are safe. */
  ghost predicate Placeable(order: seq<Column>, s: State, key: RowKey, row: Row)
  {
    && Expand(s.blobs, row.stored) == Ok(row.content)
    && (Scanned(order, s, key.column) ==> AllSafe(s, row.stored))
  }

  lemma PutRow(order: seq<Column>, s: State, key: RowKey, row: Row)
    requires Inv(order, s) && Placeable(order, s, key, row)
    ensures Inv(order, s.(rows := s.rows[key := row]))
  {
    SameHolders(s, s.(rows := s.rows[key := row]));
  }

  lemma JournalRow(order: seq<Column>, s: State, row: Row, j: nat)
    requires Inv(order, s) && Placeable(order, s, RowKey(Journal, j), row)
    ensures Inv(order, s.(rows := JournalCopy(s, row, j)))
  {
    PutRow(order, s, RowKey(Journal, j), row);
  }

  /** A row compacted by a holder is fully covered: all it refers to was pinned by that holder. */
  lemma CompactedPlaceable(order: seq<Column>, s: State, h: nat, key: RowKey, original: Fields, row: Row)
    requires Inv(order, s) && h in s.holders
    requires IsCompaction(original, row.stored, s.holders[h].kept) && row.content == Strip(original)
    ensures Placeable(order, s, key, row)
  {
    assert HolderSound(s, s.holders[h]);
    CompactThenExpand(original, row.stored, s.holders[h].kept, s.blobs);
  }

  lemma PlainPlaceable(order: seq<Column>, s: State, key: RowKey, row: Row)
    requires row.stored.Keys !! REF_KEYS && row.content == row.stored
    ensures Placeable(order, s, key, row)
  {
    assert RefsOf(Incidents) in REF_KEYS && RefsOf(Records) in REF_KEYS;
  }

  /** One holder changed, and the table and the pins grew; what the holder owed it still owes or has pinned. */
  ghost predicate HolderMoved(s: State, t: State, h: nat)
  {
    && h in s.holders && h in t.holders
    && t == s.(blobs := t.blobs, holders := s.holders[h := t.holders[h]], pinned := t.pinned)
    && Grows(s.blobs, t.blobs) && s.pinned <= t.pinned && (s.sweep.Idle? ==> t.pinned == {})
    && (forall id :: id in s.holders[h].owed ==> id in t.holders[h].owed || (Pinning(s) ==> id in t.pinned))
    && (forall id :: id in t.blobs && id !in s.blobs ==> id in t.holders[h].owed)
    && (s.sweep.Deleting? && s.sweep.cleared ==> forall id :: id in t.holders[h].seen ==> Safe(s, id))
  }

  lemma HolderKeepsSweep(order: seq<Column>, s: State, t: State, h: nat)
    requires SweepSound(order, s) && HolderMoved(s, t, h)
    ensures SweepSound(order, t) && (Pinning(s) ==> forall id :: Safe(s, id) ==> Safe(t, id))
  {
    OwedStays(s, t, h);
    assert forall id :: Pinning(s) && Safe(s, id) ==> Safe(t, id);
  }

  /** Such a step keeps the invariant. */
  lemma PutHolder(order: seq<Column>, s: State, t: State, h: nat)
    requires Inv(order, s) && HolderMoved(s, t, h) && Unique(t.blobs) && HolderSound(t, t.holders[h])
    ensures Inv(order, t)
  {
    HolderKeepsSweep(order, s, t, h);
    forall g | g in t.holders
      ensures HolderSound(t, t.holders[g])
    {
      if g != h { assert HolderSound(s, s.holders[g]); }
    }
    RowsStay(s, t);
    CacheFrame(s.cache, s.blobs, t.blobs);
  }

  lemma OwedStays(s: State, t: State, h: nat)
    requires h in s.holders && h in t.holders && t.holders == s.holders[h := t.holders[h]]
    requires forall id :: id in s.holders[h].owed ==> id in t.holders[h].owed || (Pinning(s) ==> id in t.pinned)
    ensures forall id :: Pinning(s) && Owed(s, id) ==> id in t.pinned || Owed(t, id)
    ensures forall id :: id in t.holders[h].owed ==> Owed(t, id)
  {
    forall id | Pinning(s) && Owed(s, id)
      ensures id in t.pinned || Owed(t, id)
    {
      var g :| g in s.holders && id in s.holders[g].owed;
      assert g in t.holders;
      if g != h { assert t.holders[g] == s.holders[g]; }
    }
  }

  lemma StoreHitStep(order: seq<Column>, s: State, step: Step)
    requires Inv(order, s) && Enabled(order, s, step) && step.StoreHit?
    ensures Inv(order, Apply(order, s, step))
  {
    assert HolderSound(s, s.holders[step.h]);
    PutHolder(order, s, Apply(order, s, step), step.h);
  }

  lemma StoreInsertStep(order: seq<Column>, s: State, step: Step)
    requires Inv(order, s) && Enabled(order, s, step) && step.StoreInsert?
    ensures Inv(order, Apply(order, s, step))
  {
    assert HolderSound(s, s.holders[step.h]);
    PutHolder(order, s, Apply(order, s, step), step.h);
  }

  lemma PinStep(order: seq<Column>, s: State, step: Step)
    requires Inv(order, s) && Enabled(order, s, step) && step.Pin?
    ensures Inv(order, Apply(order, s, step))
  {
    assert HolderSound(s, s.holders[step.h]);
    PutHolder(order, s, Apply(order, s, step), step.h);
  }

  lemma ReadRowStep(order: seq<Column>, s: State, step: Step)
    requires Inv(order, s) && Enabled(order, s, step) && step.ReadRow?
    ensures Inv(order, Apply(order, s, step))
  {
    assert HolderSound(s, s.holders[step.h]);
    ExpandRefsLive(s.blobs, s.rows[step.key].stored);
    PutHolder(order, s, Apply(order, s, step), step.h);
  }

  lemma CacheKeepsSweep(order: seq<Column>, s: State, t: State, id: Id)
    requires SweepSound(order, s) && t == s.(cache := t.cache) && CachedIds(t.cache) <= CachedIds(s.cache) + {id}
    requires s.sweep.Deleting? && s.sweep.cleared ==> Safe(s, id)
    ensures SweepSound(order, t)
  {
    assert forall i :: Owed(s, i) <==> Owed(t, i);
    assert forall i :: Safe(s, i) <==> Safe(t, i);
  }

  /** A cache entry for a blob that is there, and safe once the cache was emptied, keeps the invariant. */
  lemma CachedInv(order: seq<Column>, s: State, digest: Option<Raw>, id: Id, body: Raw)
    requires Inv(order, s) && Live(s, id, body) && (digest == None || digest == Some(body))
    requires s.sweep.Deleting? && s.sweep.cleared ==> Safe(s, id)
    ensures Inv(order, s.(cache := CachePut(s.cache, digest, id, body)))
  {
    var t := s.(cache := CachePut(s.cache, digest, id, body));
    CachePutAgrees(s.cache, digest, id, body, s.blobs);
    CacheKeepsSweep(order, s, t, id);
    SameHolders(s, t);
    MarksStay(order, s, t);
  }

  lemma CacheStep(order: seq<Column>, s: State, step: Step)
    requires Inv(order, s) && Enabled(order, s, step) && step.CacheBlob?
    ensures Inv(order, Apply(order, s, step))
  {
    assert step.id in s.holders[step.h].owed ==> Owed(s, step.id);
    CachedInv(order, s, if step.byDigest then Some(s.blobs[step.id]) else None, step.id, s.blobs[step.id]);
  }

  /** The same rows, with no more columns scanned and no id less safe. */
  lemma MarksStay(order: seq<Column>, s: State, t: State)
    requires MarksSound(order, s) && t.rows == s.rows
    requires forall column :: Scanned(order, t, column) ==> Scanned(order, s, column)
    requires forall id :: Safe(s, id) ==> Safe(t, id)
    ensures MarksSound(order, t)
  {
    forall key | key in t.rows && Scanned(order, t, key.column) ensures AllSafe(t, t.rows[key].stored) {
      assert AllSafe(s, s.rows[key].stored);
    }
  }

  lemma RowsStay(s: State, t: State)
    requires RowsIntact(s) && t.rows == s.rows && Grows(s.blobs, t.blobs)
    ensures RowsIntact(t)
  {
    forall key | key in t.rows ensures Expand(t.blobs, t.rows[key].stored) == Ok(t.rows[key].content) {
      ExpandFrame(s.blobs, t.blobs, t.rows[key].stored);
    }
  }

  /** Acquiring the shared lock, or releasing it with nothing owed, leaves what is owed as it was. */
  lemma OwedAlike(order: seq<Column>, s: State, step: Step)
    requires Enabled(order, s, step) && (step.Acquire? || step.Release?)
    ensures forall id :: Owed(s, id) <==> Owed(Apply(order, s, step), id)
    ensures forall id :: Safe(s, id) <==> Safe(Apply(order, s, step), id)
  {
    var t := Apply(order, s, step);
    forall id ensures Owed(s, id) <==> Owed(t, id) {
      if Owed(s, id) {
        var g :| g in s.holders && id in s.holders[g].owed;
        assert g in t.holders && t.holders[g] == s.holders[g];
      }
      if Owed(t, id) {
        var g :| g in t.holders && id in t.holders[g].owed;
        assert g in s.holders && t.holders[g] == s.holders[g];
      }
    }
  }

  lemma SharedKeepsSweep(order: seq<Column>, s: State, step: Step)
    requires SweepSound(order, s) && Enabled(order, s, step) && (step.Acquire? || step.Release?)
    ensures SweepSound(order, Apply(order, s, step))
  {
    OwedAlike(order, s, step);
  }

  lemma SharedLockSteps(order: seq<Column>, s: State, step: Step)
    requires Inv(order, s) && Enabled(order, s, step) && (step.Acquire? || step.Release?)
    ensures Inv(order, Apply(order, s, step))
  {
    var t := Apply(order, s, step);
    OwedAlike(order, s, step);
    SharedKeepsSweep(order, s, step);
    MarksStay(order, s, t);
    forall h | h in t.holders
      ensures HolderSound(t, t.holders[h])
    {
      if h in s.holders { assert HolderSound(s, s.holders[h]); }
    }
  }

  lemma ExclusiveLockSteps(order: seq<Column>, s: State, step: Step)
    requires Inv(order, s) && Enabled(order, s, step) && (step.Restart? || step.StartSweep? || step.FinishSweep?)
    ensures Inv(order, Apply(order, s, step))
  {
    EmptyCacheAgrees(s.blobs);
  }

  lemma ScanStep(order: seq<Column>, s: State, step: Step)
    requires Inv(order, s) && Enabled(order, s, step) && step.ScanColumn?
    ensures Inv(order, Apply(order, s, step))
  {
    var t := Apply(order, s, step);
    SameHolders(s, t);
    assert order[..s.sweep.done + 1] == order[..s.sweep.done] + [order[s.sweep.done]];
    forall key | key in t.rows && Scanned(order, t, key.column)
      ensures AllSafe(t, t.rows[key].stored)
    {
      forall id | id in RefIds(t.rows[key].stored) ensures Safe(t, id) {
        if key.column == order[s.sweep.done] { assert id in Marks(s, key.column); } else { assert Safe(s, id); }
      }
    }
  }

  lemma ListKeepsSweep(order: seq<Column>, s: State, t: State, rest: seq<Id>)
    requires SweepSound(order, s) && s.sweep.Scanning?
    requires forall id :: id in rest <==> id in s.blobs && id <= s.sweep.maxId && id !in s.sweep.marked
    requires t == s.(sweep := Deleting(s.sweep.marked, s.sweep.maxId, rest, false))
    ensures SweepSound(order, t) && forall id :: Safe(s, id) ==> Safe(t, id)
  {
    assert forall id :: Owed(s, id) <==> Owed(t, id);
    assert forall id :: Safe(s, id) ==> Safe(t, id);
  }

  lemma ListStep(order: seq<Column>, s: State, step: Step)
    requires Inv(order, s) && Enabled(order, s, step) && GoodOrder(order) && step.ListCandidates?
    ensures Inv(order, Apply(order, s, step))
  {
    var t := Apply(order, s, step);
    ListKeepsSweep(order, s, t, step.rest);
    SameHolders(s, t);
    assert order[..|order|] == order;
    MarksStay(order, s, t);
  }

  lemma SameHolders(s: State, t: State)
    requires HoldersSound(s) && t.holders == s.holders && t.blobs == s.blobs && s.pinned == t.pinned
    requires (Pinning(t) ==> Pinning(s))
    ensures HoldersSound(t)
    ensures forall id :: Owed(s, id) <==> Owed(t, id)
    ensures s.sweep == t.sweep ==> forall id :: Safe(s, id) <==> Safe(t, id)
  {
    forall h | h in t.holders ensures HolderSound(t, t.holders[h]) { assert HolderSound(s, s.holders[h]); }
  }

  /** What a batch removes is neither referenced nor, once the cache was emptied, cached. */
  lemma BatchIsGarbage(order: seq<Column>, s: State, id: Id)
    requires Inv(order, s) && s.sweep.Deleting? && s.holders == map[]
    requires id in Batch(s.sweep.rest) && id !in s.pinned
    ensures forall key :: key in s.rows ==> id !in RefIds(s.rows[key].stored)
    ensures s.sweep.cleared ==> id !in CachedIds(s.cache)
  {
    assert id in s.sweep.rest;
    assert !Safe(s, id);
    forall key | key in s.rows ensures id !in RefIds(s.rows[key].stored) { assert AllSafe(s, s.rows[key].stored); }
  }

  lemma BatchKeepsSweep(order: seq<Column>, s: State, t: State)
    requires SweepSound(order, s) && s.sweep.Deleting? && s.holders == map[]
    requires t == s.(blobs := t.blobs, cache := if s.sweep.cleared then s.cache else EMPTY_CACHE, sweep := t.sweep)
    requires t.blobs == s.blobs - ((set id | id in Batch(s.sweep.rest)) - s.pinned)
    requires t.sweep == Deleting(s.sweep.marked, s.sweep.maxId, s.sweep.rest[|Batch(s.sweep.rest)|..], true)
    ensures SweepSound(order, t) && forall id :: Safe(s, id) ==> Safe(t, id)
  {
    assert s.sweep.rest == Batch(s.sweep.rest) + t.sweep.rest;
    assert forall id :: !Owed(s, id) && !Owed(t, id);
    EmptyCacheAgrees(t.blobs);
  }

  lemma BatchKeepsRows(order: seq<Column>, s: State)
    requires Inv(order, s) && Enabled(order, s, DeleteSome)
    ensures RowsIntact(Apply(order, s, DeleteSome))
    ensures CacheAgrees(Apply(order, s, DeleteSome).cache, Apply(order, s, DeleteSome).blobs)
  {
    var t := Apply(order, s, DeleteSome);
    forall id | id in s.blobs && id !in t.blobs
      ensures forall key :: key in s.rows ==> id !in RefIds(s.rows[key].stored)
      ensures s.sweep.cleared ==> id !in CachedIds(s.cache)
    {
      BatchIsGarbage(order, s, id);
    }
    forall key | key in t.rows ensures Expand(t.blobs, t.rows[key].stored) == Ok(t.rows[key].content) {
      ExpandFrame(s.blobs, t.blobs, t.rows[key].stored);
    }
    if s.sweep.cleared { CacheFrame(s.cache, s.blobs, t.blobs); } else { EmptyCacheAgrees(t.blobs); }
  }

  /** One batch: nothing that is referenced, held or cached goes away. */
  lemma DeleteStep(order: seq<Column>, s: State, step: Step)
    requires Inv(order, s) && Enabled(order, s, step) && step.DeleteSome?
    ensures Inv(order, Apply(order, s, step))
  {
    BatchKeepsSweep(order, s, Apply(order, s, step));
    BatchKeepsRows(order, s);
    MarksStay(order, s, Apply(order, s, step));
  }

  lemma WriteStep(order: seq<Column>, s: State, step: Step)
    requires Inv(order, s) && Enabled(order, s, step) && (step.WriteRow? || step.WritePlain?)
    ensures Inv(order, Apply(order, s, step))
  {
    var row := Apply(order, s, step).rows[step.key];
    if step.WriteRow? {
      CompactedPlaceable(order, s, step.h, step.key, step.original, row);
    } else {
      PlainPlaceable(order, s, step.key, row);
    }
    PutRow(order, s, step.key, row);
  }

  lemma TouchStep(order: seq<Column>, s: State, step: Step)
    requires Inv(order, s) && Allowed(order, s, step) && step.TouchEvent?
    ensures Inv(order, Apply(order, s, step))
  {
    var row := s.rows[RowKey(Events, step.e)];
    if !Journaled(s, row) { JournalRow(order, s, row, step.j); }
  }

  lemma CopyStep(order: seq<Column>, s: State, w: nat, v: nat)
    requires Inv(order, s) && GoodOrder(order) && Enabled(order, s, JournalVerification(w, v))
    ensures Inv(order, Apply(order, s, JournalVerification(w, v)))
  {
    var row := s.rows[RowKey(Workers, w)];
    if Scanned(order, s, Verifications) {
      ScannedTogether(order, s);
      assert AllSafe(s, row.stored);
    }
    PutRow(order, s, RowKey(Verifications, v), row);
  }

  lemma DeleteRowStep(order: seq<Column>, s: State, key: RowKey)
    requires Inv(order, s)
    ensures Inv(order, s.(rows := s.rows - {key}))
  {
    SameHolders(s, s.(rows := s.rows - {key}));
  }

  /** Recording an event writes the event and, through the trigger, its journal entry. */
  lemma RecordEventStep(order: seq<Column>, s: State, step: Step)
    requires Inv(order, s) && Enabled(order, s, step) && step.RecordEvent?
    ensures Inv(order, Apply(order, s, step))
  {
    var row := Row(step.stored, Strip(step.original), step.e, step.at);
    CompactedPlaceable(order, s, step.h, RowKey(Journal, step.j), step.original, row);
    CompactedPlaceable(order, s, step.h, RowKey(Events, step.e), step.original, row);
    EventPlaced(order, s, step.e, row, step.j);
  }

  lemma PlainEventStep(order: seq<Column>, s: State, step: Step)
    requires Inv(order, s) && Enabled(order, s, step) && step.PlainEvent?
    ensures Inv(order, Apply(order, s, step))
  {
    var row := Row(step.fields, step.fields, step.e, step.at);
    PlainPlaceable(order, s, RowKey(Journal, step.j), row);
    PlainPlaceable(order, s, RowKey(Events, step.e), row);
    EventPlaced(order, s, step.e, row, step.j);
  }

  /** What the sweep looks at only grew in pins, or changed in what callers without the lock have. */
  lemma LooseInv(order: seq<Column>, s: State, t: State)
    requires Inv(order, s) && t == s.(callers := t.callers, pinned := t.pinned)
    requires s.pinned <= t.pinned && (s.sweep.Idle? ==> t.pinned == {})
    requires forall id :: id in LooseIds(s) ==> id in LooseIds(t) || !Pinning(s) || id in t.pinned
    ensures Inv(order, t)
  {
    LooseKeepsSweep(order, s, t);
    MarksStay(order, s, t);
    HoldersStay(s, t);
  }

  lemma LooseKeepsSweep(order: seq<Column>, s: State, t: State)
    requires SweepSound(order, s) && t == s.(callers := t.callers, pinned := t.pinned)
    requires s.pinned <= t.pinned && (s.sweep.Idle? ==> t.pinned == {})
    requires forall id :: id in LooseIds(s) ==> id in LooseIds(t) || !Pinning(s) || id in t.pinned
    ensures SweepSound(order, t) && forall id :: Safe(s, id) ==> Safe(t, id)
  {
    assert forall id :: Owed(s, id) <==> Owed(t, id);
    assert forall id :: Safe(s, id) ==> Safe(t, id);
  }

  /** A caller that moves on keeps what it has not pinned; so do the others. */
  lemma CallersMove(s: State, t: State, c: nat)
    requires forall d :: d in s.callers && d != c ==> d in t.callers && t.callers[d] == s.callers[d]
    requires c in s.callers && c in t.callers ==> t.callers[c].id == s.callers[c].id
    ensures forall id :: id in LooseIds(s) ==>
              id in LooseIds(t) || (c in s.callers && c !in t.callers && id == s.callers[c].id)
    ensures c in t.callers ==> t.callers[c].id in LooseIds(t)
  {
    forall id | id in LooseIds(s)
      ensures id in LooseIds(t) || (c in s.callers && c !in t.callers && id == s.callers[c].id)
    {
      var d :| d in s.callers && s.callers[d].id == id;
      if d in t.callers { assert t.callers[d].id in LooseIds(t); }
    }
  }

  /** Obtaining a blob and pinning it without the lock is harmless. */
  lemma LooseSteps(order: seq<Column>, s: State, step: Step)
    requires Inv(order, s) && Enabled(order, s, step) && (step.LooseHit? || step.LoosePin?)
    ensures Inv(order, Apply(order, s, step))
  {
    CallersMove(s, Apply(order, s, step), step.c);
    LooseInv(order, s, Apply(order, s, step));
  }

  lemma InsertedUnique(s: State, body: Raw, id: Id)
    requires Unique(s.blobs) && Insertable(s, body, id)
    ensures Unique(s.blobs[id := body]) && Grows(s.blobs, s.blobs[id := body])
  {
  }

  lemma HoldersStay(s: State, t: State)
    requires HoldersSound(s) && t.holders == s.holders && Grows(s.blobs, t.blobs)
    requires s.pinned <= t.pinned && s.sweep == t.sweep
    ensures HoldersSound(t)
  {
    forall h | h in t.holders ensures HolderSound(t, t.holders[h]) { assert HolderSound(s, s.holders[h]); }
  }

  /** So is inserting one. */
  lemma LooseBlobInv(order: seq<Column>, s: State, t: State, body: Raw, id: Id)
    requires Inv(order, s) && Insertable(s, body, id)
    requires t == s.(blobs := s.blobs[id := body], callers := t.callers)
    requires LooseIds(s) <= LooseIds(t) && id in LooseIds(t)
    ensures Inv(order, t)
  {
    InsertedUnique(s, body, id);
    LooseBlobKeepsSweep(order, s, t, body, id);
    MarksStay(order, s, t);
    RowsStay(s, t);
    CacheFrame(s.cache, s.blobs, t.blobs);
    HoldersStay(s, t);
  }

  lemma LooseBlobKeepsSweep(order: seq<Column>, s: State, t: State, body: Raw, id: Id)
    requires SweepSound(order, s) && t == s.(blobs := s.blobs[id := body], callers := t.callers)
    requires LooseIds(s) <= LooseIds(t) && id in LooseIds(t)
    ensures SweepSound(order, t) && forall id :: Safe(s, id) <==> Safe(t, id)
  {
    assert forall id :: Owed(s, id) <==> Owed(t, id);
    assert forall id :: Safe(s, id) <==> Safe(t, id);
  }

  lemma LooseInsertStep(order: seq<Column>, s: State, step: Step)
    requires Inv(order, s) && Enabled(order, s, step) && step.LooseInsert?
    ensures Inv(order, Apply(order, s, step))
  {
    CallersMove(s, Apply(order, s, step), step.c);
    LooseBlobInv(order, s, Apply(order, s, step), step.body, step.id);
  }

  lemma LooseCacheStep(order: seq<Column>, s: State, step: Step)
    requires Inv(order, s) && Allowed(order, s, step) && step.LooseCache?
    ensures Inv(order, Apply(order, s, step))
  {
    var (id, body) := (s.callers[step.c].id, s.callers[step.c].body);
    var cached := s.(cache := CachePut(s.cache, Some(body), id, body));
    CachedInv(order, s, Some(body), id, body);
    CallersMove(cached, Apply(order, s, step), step.c);
    LooseInv(order, cached, Apply(order, s, step));
  }

  lemma EventPlaced(order: seq<Column>, s: State, e: nat, row: Row, j: nat)
    requires Inv(order, s) && Placeable(order, s, RowKey(Journal, j), row)
    requires Placeable(order, s, RowKey(Events, e), row)
    ensures Inv(order, Recorded(s, e, row, j))
  {
    JournalRow(order, s, row, j);
    var mid := s.(rows := JournalCopy(s, row, j));
    SameHolders(s, mid);
    PutRow(order, mid, RowKey(Events, e), row);
  }

  /** The scan order is what makes the trigger copy safe: its source was scanned before its target. */
  lemma ScannedTogether(order: seq<Column>, s: State)
    requires GoodOrder(order) && Scanned(order, s, Verifications)
    ensures Scanned(order, s, Workers)
  {
    if s.sweep.Scanning? {
      var upto := order[..if s.sweep.done <= |order| then s.sweep.done else |order|];
      var i :| 0 <= i < |upto| && upto[i] == Verifications;
      var j :| 0 <= j < i && order[..i][j] == Workers;
      assert upto[j] == Workers;
    }
  }

  predicate OfHolder(step: Step)
  {
    || step.Acquire? || step.Release? || step.StoreHit? || step.StoreInsert? || step.CacheBlob? || step.Pin?
        || step.ReadRow?
  }

  predicate OfSweep(step: Step)
  {
    || step.StartSweep? || step.ScanColumn? || step.ListCandidates? || step.DeleteSome? || step.FinishSweep?
        || step.Restart?
  }

  predicate OfLoose(step: Step)
  {
    step.LooseHit? || step.LooseInsert? || step.LooseCache? || step.LoosePin?
  }

  lemma HolderStepKeepsInv(order: seq<Column>, s: State, step: Step)
    requires Inv(order, s) && Enabled(order, s, step) && OfHolder(step)
    ensures Inv(order, Apply(order, s, step))
  {
    match step
    case StoreHit(_, _) => StoreHitStep(order, s, step);
    case StoreInsert(_, _, _) => StoreInsertStep(order, s, step);
    case CacheBlob(_, _, _) => CacheStep(order, s, step);
    case Pin(_, _) => PinStep(order, s, step);
    case ReadRow(_, _) => ReadRowStep(order, s, step);
    case _ => SharedLockSteps(order, s, step);
  }

  lemma SweepStepKeepsInv(order: seq<Column>, s: State, step: Step)
    requires Inv(order, s) && Enabled(order, s, step) && GoodOrder(order) && OfSweep(step)
    ensures Inv(order, Apply(order, s, step))
  {
    match step
    case ScanColumn => ScanStep(order, s, step);
    case ListCandidates(_) => ListStep(order, s, step);
    case DeleteSome => DeleteStep(order, s, step);
    case _ => ExclusiveLockSteps(order, s, step);
  }

  lemma LooseStepKeepsInv(order: seq<Column>, s: State, step: Step)
    requires Inv(order, s) && Allowed(order, s, step) && OfLoose(step)
    ensures Inv(order, Apply(order, s, step))
  {
    match step
    case LooseInsert(_, _, _) => LooseInsertStep(order, s, step);
    case LooseCache(_) => LooseCacheStep(order, s, step);
    case _ => LooseSteps(order, s, step);
  }

  lemma RowStepKeepsInv(order: seq<Column>, s: State, step: Step)
    requires Inv(order, s) && Allowed(order, s, step) && GoodOrder(order)
    requires !OfHolder(step) && !OfSweep(step) && !OfLoose(step)
    ensures Inv(order, Apply(order, s, step))
  {
    match step
    case RecordEvent(_, _, _, _, _, _) => RecordEventStep(order, s, step);
    case PlainEvent(_, _, _, _) => PlainEventStep(order, s, step);
    case TouchEvent(_, _, _, _) => TouchStep(order, s, step);
    case JournalVerification(w, v) => CopyStep(order, s, w, v);
    case DeleteRow(key) => DeleteRowStep(order, s, key);
    case _ => WriteStep(order, s, step);
  }

  lemma StepKeepsInv(order: seq<Column>, s: State, step: Step)
    requires Inv(order, s) && Allowed(order, s, step) && GoodOrder(order)
    ensures Inv(order, Apply(order, s, step))
  {
    if OfHolder(step) {
      HolderStepKeepsInv(order, s, step);
    } else if OfSweep(step) {
      SweepStepKeepsInv(order, s, step);
    } else if OfLoose(step) {
      LooseStepKeepsInv(order, s, step);
    } else {
      RowStepKeepsInv(order, s, step);
    }
  }

  // ---------------------------------------------------------------- runs

  /** The steps lead from `s` to `t`; a careful run takes allowed steps only. */
  ghost predicate Leads(order: seq<Column>, careful: bool, s: State, steps: seq<Step>, t: State)
    decreases |steps|
  {
    if steps == [] then s == t
    else
      && Enabled(order, s, steps[0]) && (careful ==> Allowed(order, s, steps[0]))
      && Leads(order, careful, Apply(order, s, steps[0]), steps[1..], t)
  }

  lemma {:induction false} RunKeepsInv(order: seq<Column>, s: State, steps: seq<Step>, t: State)
    requires GoodOrder(order) && Inv(order, s) && Leads(order, true, s, steps, t)
    ensures Inv(order, t)
    decreases |steps|
  {
    if steps != [] {
      StepKeepsInv(order, s, steps[0]);
      RunKeepsInv(order, Apply(order, s, steps[0]), steps[1..], t);
    }
  }

  /** Safety: every run from empty tables whose steps without the lock keep to their guards reaches only states
      where every row of all four columns expands to what was written into it, the cache agrees with the table,
      and no blob a writer is about to reference is missing. */
  lemma NoRunLosesABlob(steps: seq<Step>, t: State)
    requires Leads(SCAN_ORDER, true, EMPTY, steps, t)
    ensures RowsIntact(t)
    ensures CacheAgrees(t.cache, t.blobs)
    ensures forall key :: key in t.rows ==> RefIds(t.rows[key].stored) <= t.blobs.Keys
    ensures forall h :: h in t.holders ==> Grows(t.holders[h].kept, t.blobs)
  {
    ScanOrderIsGood();
    EmptyInv(SCAN_ORDER);
    RunKeepsInv(SCAN_ORDER, EMPTY, steps, t);
    forall key | key in t.rows
      ensures RefIds(t.rows[key].stored) <= t.blobs.Keys
    {
      ExpandRefsLive(t.blobs, t.rows[key].stored);
    }
    forall h | h in t.holders ensures Grows(t.holders[h].kept, t.blobs) { assert HolderSound(t, t.holders[h]); }
  }

  lemma ScanOrderIsGood()
    ensures GoodOrder(SCAN_ORDER)
  {
    forall column: Column
      ensures column in SCAN_ORDER
    {
      match column
      case Workers => assert SCAN_ORDER[0] == column;
      case Verifications => assert SCAN_ORDER[1] == column;
      case Journal => assert SCAN_ORDER[2] == column;
      case Events => assert SCAN_ORDER[3] == column;
    }
    assert SCAN_ORDER[..1][0] == Workers;
  }
}

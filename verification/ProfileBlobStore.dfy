/** The blob table with its in-memory cache, and the loops that compact, expand, mark and delete. */
module ProfileBlobStore {
  import opened Basics
  import opened ProfileSnapshot
  import Sums

  const CACHE_MAX_BYTES: nat := 64 * 1024 * 1024
  const LOAD_CHUNK: nat := 500

  // ---------------------------------------------------------------- cache

  datatype Cache = Cache(ids: map<Raw, Id>, bodies: map<Id, Raw>, bodyBytes: nat)

  const EMPTY_CACHE := Cache(map[], map[], 0)

  /** Bytes of one raw element. */
  function Length(raw: Raw): nat
  {
    match raw
    case Number(n) => Digits(n)
    case NullItem => 4
    case Text(text) => |text|
  }

  ghost function Lengths(bodies: map<Id, Raw>): map<Id, nat>
  {
    map id | id in bodies :: Length(bodies[id])
  }

  /** Adding one entry: the whole cache is dropped first when it would outgrow its budget. */
  function CachePut(cache: Cache, digest: Option<Raw>, id: Id, body: Raw): Cache
  {
    var room := if cache.bodyBytes + Length(body) > CACHE_MAX_BYTES then EMPTY_CACHE else cache;
    var ids := if digest.Some? then room.ids[digest.value := id] else room.ids;
    if id in room.bodies then Cache(ids, room.bodies, room.bodyBytes)
    else Cache(ids, room.bodies[id := body], room.bodyBytes + Length(body))
  }

  /** The digest column is UNIQUE. */
  ghost predicate Unique(blobs: Blobs)
  {
    forall i, j :: i in blobs && j in blobs && blobs[i] == blobs[j] ==> i == j
  }

  /** What the cache claims is what the table holds, and its byte count is the sum of its bodies. */
  ghost predicate CacheAgrees(cache: Cache, blobs: Blobs)
  {
    && (forall body :: body in cache.ids ==> cache.ids[body] in blobs && blobs[cache.ids[body]] == body)
    && (forall id :: id in cache.bodies ==> id in blobs && blobs[id] == cache.bodies[id])
    && cache.bodyBytes == Sums.Total(Lengths(cache.bodies))
  }

  ghost function CachedIds(cache: Cache): set<Id>
  {
    (set body | body in cache.ids :: cache.ids[body]) + cache.bodies.Keys
  }

  lemma EmptyCacheAgrees(blobs: Blobs)
    ensures CacheAgrees(EMPTY_CACHE, blobs)
    ensures CachedIds(EMPTY_CACHE) == {}
  {
    assert Lengths(EMPTY_CACHE.bodies) == map[];
  }

  lemma CachePutAgrees(cache: Cache, digest: Option<Raw>, id: Id, body: Raw, blobs: Blobs)
    requires CacheAgrees(cache, blobs)
    requires id in blobs && blobs[id] == body
    requires digest == None || digest == Some(body)
    ensures CacheAgrees(CachePut(cache, digest, id, body), blobs)
    ensures CachedIds(CachePut(cache, digest, id, body)) <= CachedIds(cache) + {id}
  {
    EmptyCacheAgrees(blobs);
    var room := if cache.bodyBytes + Length(body) > CACHE_MAX_BYTES then EMPTY_CACHE else cache;
    if id !in room.bodies {
      assert Lengths(room.bodies[id := body]) == Lengths(room.bodies)[id := Length(body)];
      Sums.TotalUpdate(Lengths(room.bodies), id, Length(body));
      assert Lengths(room.bodies) - {id} == Lengths(room.bodies);
    }
  }

  /** The entry is cached; the others stay if all fits into 64 MiB and go otherwise, so that the cache outgrows that
      only for a single body. */
  lemma CachePutBounded(cache: Cache, digest: Option<Raw>, id: Id, body: Raw)
    ensures var next := CachePut(cache, digest, id, body);
            && id in next.bodies && (digest.Some? ==> digest.value in next.ids && next.ids[digest.value] == id)
            && (cache.bodyBytes + Length(body) <= 67_108_864 ==>
                  && cache.bodies.Keys <= next.bodies.Keys && cache.ids.Keys <= next.ids.Keys
                  && next.bodyBytes <= 67_108_864)
            && (cache.bodyBytes + Length(body) > 67_108_864 ==>
                  next.bodies == map[id := body] && next.bodyBytes == Length(body))
  {
  }

  /** A table that keeps every cached row keeps the agreement. */
  lemma CacheFrame(cache: Cache, before: Blobs, after: Blobs)
    requires CacheAgrees(cache, before)
    requires forall id :: id in CachedIds(cache) && id in before ==> id in after && after[id] == before[id]
    ensures CacheAgrees(cache, after)
  {
    forall body | body in cache.ids
      ensures cache.ids[body] in after && after[cache.ids[body]] == body
    {
      assert cache.ids[body] in CachedIds(cache);
    }
  }

  // ---------------------------------------------------------------- the table and its loops

  ghost predicate Grows(before: Blobs, after: Blobs)
  {
    forall id :: id in before ==> id in after && after[id] == before[id]
  }

  lemma NamesNext(before: Blobs, after: Blobs, stored: seq<Id>, items: seq<Raw>, i: nat, id: Id)
    requires i < |items| && Names(before, stored, items[..i]) && Grows(before, after)
    requires id in after && after[id] == items[i]
    ensures Names(after, stored + [id], items[..i + 1])
    ensures (set j | j in stored + [id]) == (set j | j in stored) + {id}
  {
  }

  class BlobDB {
    var blobs: Blobs
    var ids: map<Raw, Id>
    var bodies: map<Id, Raw>
    var bodyBytes: nat
    var pinning: bool
    var pinned: set<Id>

    ghost function Cached(): Cache
      reads this
    {
      Cache(ids, bodies, bodyBytes)
    }

    ghost predicate Valid()
      reads this
    {
      Unique(blobs) && CacheAgrees(Cached(), blobs) && (!pinning ==> pinned == {})
    }

    constructor ()
      ensures Valid() && blobs == map[] && Cached() == EMPTY_CACHE && !pinning
    {
      blobs, ids, bodies, bodyBytes, pinning, pinned := map[], map[], map[], 0, false, {};
      new;
      EmptyCacheAgrees(blobs);
    }

    method Pin(id: Id)
      modifies this`pinned
      ensures pinned == if pinning then old(pinned) + {id} else old(pinned)
    {
      if pinning { pinned := pinned + {id}; }
    }

    method ClearCache()
      modifies this`ids, this`bodies, this`bodyBytes
      ensures Cached() == EMPTY_CACHE
    {
      ids, bodies, bodyBytes := map[], map[], 0;
    }

    method CacheStore(digest: Option<Raw>, id: Id, body: Raw)
      modifies this`ids, this`bodies, this`bodyBytes
      ensures Cached() == CachePut(old(Cached()), digest, id, body)
    {
      if bodyBytes + Length(body) > CACHE_MAX_BYTES { ClearCache(); }
      if digest.Some? { ids := ids[digest.value := id]; }
      if id !in bodies {
        bodies := bodies[id := body];
        bodyBytes := bodyBytes + Length(body);
      }
    }

    /** The next row id: one past the largest in use, so ids of deleted rows come back. */
    method NextId() returns (next: Id)
      ensures next !in blobs && next > 0
    {
      next := 1;
      var rest := blobs.Keys;
      while rest != {}
        invariant rest <= blobs.Keys && next > 0
        invariant forall id :: id in blobs && id !in rest ==> id < next
        decreases rest
      {
        var id :| id in rest;
        if id >= next { next := id + 1; }
        rest := rest - {id};
      }
    }

    /** storeProfileBlob: content already stored is found by digest, in the cache or in the table. */
    method StoreBlob(item: Raw) returns (id: Id)
      requires Valid()
      modifies this
      ensures Valid() && pinning == old(pinning)
      ensures id in blobs && blobs[id] == item && Grows(old(blobs), blobs) && blobs.Keys <= old(blobs).Keys + {id}
      ensures pinned == if pinning then old(pinned) + {id} else old(pinned)
    {
      if item in ids {
        id := ids[item];
        Pin(id);
        return;
      }
      if existing :| existing in blobs.Keys && blobs[existing] == item {
        id := existing;
      } else {
        id := NextId();
        assert forall j :: j in blobs ==> blobs[j] != item;
        blobs := blobs[id := item];
      }
      CacheFrame(Cached(), old(blobs), blobs);
      CachePutAgrees(Cached(), Some(item), id, item, blobs);
      CacheStore(Some(item), id, item);
      Pin(id);
    }

    method StoreAll(items: seq<Raw>) returns (stored: seq<Id>)
      requires Valid()
      modifies this
      ensures Valid() && pinning == old(pinning)
      ensures Grows(old(blobs), blobs) && Names(blobs, stored, items)
      ensures pinned == if pinning then old(pinned) + (set id | id in stored) else old(pinned)
    {
      stored := [];
      for i := 0 to |items|
        invariant Valid() && pinning == old(pinning)
        invariant Grows(old(blobs), blobs) && Names(blobs, stored, items[..i])
        invariant pinned == if pinning then old(pinned) + (set id | id in stored) else old(pinned)
      {
        ghost var before := blobs;
        var id := StoreBlob(items[i]);
        NamesNext(before, blobs, stored, items, i, id);
        stored := stored + [id];
      }
      assert items[..|items|] == items;
    }

    /** One array of compactProfileSnapshot, after reported references were removed. */
    method CompactSpec(fields: Fields, spec: Spec) returns (r: Fields, ghost known: Blobs)
      requires Valid() && RefsOf(spec) !in fields
      modifies this
      ensures Valid() && pinning == old(pinning) && Grows(old(blobs), blobs) && Grows(known, blobs)
      ensures SpecCompacted(fields, r, spec, known)
      ensures forall key :: key != ArrayOf(spec) && key != RefsOf(spec) ==> SameField(fields, r, key)
      ensures old(pinned) <= pinned && (pinning ==> known.Keys <= pinned)
    {
      r, known := fields, map[];
      if ArrayOf(spec) in fields && fields[ArrayOf(spec)].Array? && fields[ArrayOf(spec)].items != [] {
        var stored := StoreAll(fields[ArrayOf(spec)].items);
        r := (fields - {ArrayOf(spec)})[RefsOf(spec) := EncodeIds(stored)];
        known := map id | id in stored && id in blobs :: blobs[id];
        assert Names(known, stored, fields[ArrayOf(spec)].items);
      }
    }

    /** compactProfileSnapshot: the result is a compaction of the input by blobs this call stored, all of
        them pinned while a sweep is pinning, and it expands back to the input. */
    method CompactSnapshot(fields: Fields) returns (r: Fields, ghost known: Blobs)
      requires Valid()
      modifies this
      ensures Valid() && pinning == old(pinning) && Grows(old(blobs), blobs) && Grows(known, blobs)
      ensures IsCompaction(fields, r, known)
      ensures pinning ==> known.Keys <= pinned
      ensures Expand(blobs, r) == Ok(Strip(fields))
    {
      var step, first := CompactSpec(fields - REF_KEYS, Incidents);
      ghost var last;
      assert SameField(fields - REF_KEYS, step, RefsOf(Records));
      r, last := CompactSpec(step, Records);
      known := first + last;
      BothSpecsCompacted(fields, step, r, first, last);
      CompactThenExpand(fields, r, known, blobs);
    }

    /** loadProfileBlobs: cached bodies first, the distinct missing ids in chunks of 500, then every
        position filled in; an id the table does not have is an error. */
    method LoadBlobs(wanted: seq<Id>) returns (r: Result<seq<Raw>>)
      requires Valid()
      modifies this`ids, this`bodies, this`bodyBytes
      ensures Valid()
      ensures r == Load(blobs, wanted)
    {
      var items: seq<Option<Raw>> := [];
      var missing: seq<Id> := [];
      var seen: set<Id> := {};
      for i := 0 to |wanted|
        invariant |items| == i
        invariant forall j :: 0 <= j < i ==>
            if items[j].Some? then wanted[j] in blobs && items[j].value == blobs[wanted[j]] else wanted[j] in seen
        invariant forall id :: id in seen <==> id in missing
      {
        if wanted[i] in bodies {
          items := items + [Some(bodies[wanted[i]])];
        } else {
          items := items + [None];
          if wanted[i] !in seen {
            seen := seen + {wanted[i]};
            missing := missing + [wanted[i]];
          }
        }
      }
      var loaded: map<Id, Raw> := map[];
      var start := 0;
      while start < |missing|
        invariant Valid()
        invariant Grows(loaded, blobs)
        invariant forall k :: 0 <= k < start && k < |missing| && missing[k] in blobs ==> missing[k] in loaded
      {
        var end := if start + LOAD_CHUNK < |missing| then start + LOAD_CHUNK else |missing|;
        loaded := LoadChunkInto(missing[start..end], loaded);
        assert forall k :: start <= k < end ==> missing[k] == missing[start..end][k - start];
        start := start + LOAD_CHUNK;
      }
      var full: seq<Raw> := [];
      for i := 0 to |wanted|
        invariant |full| == i
        invariant forall j :: 0 <= j < i ==> wanted[j] in blobs && full[j] == blobs[wanted[j]]
      {
        if items[i].Some? {
          full := full + [items[i].value];
        } else if wanted[i] in loaded {
          full := full + [loaded[wanted[i]]];
        } else {
          assert wanted[i] in missing;
          return Err;
        }
      }
      assert Load(blobs, wanted).value == full;
      return Ok(full);
    }

    method CacheLoaded(id: Id)
      requires Valid() && id in blobs
      modifies this`ids, this`bodies, this`bodyBytes
      ensures Valid()
      ensures Cached() == CachePut(old(Cached()), None, id, blobs[id])
    {
      CachePutAgrees(Cached(), None, id, blobs[id], blobs);
      CacheStore(None, id, blobs[id]);
    }

    method LoadChunkInto(chunk: seq<Id>, before: map<Id, Raw>) returns (loaded: map<Id, Raw>)
      requires Valid() && Grows(before, blobs)
      modifies this`ids, this`bodies, this`bodyBytes
      ensures Valid()
      ensures Grows(before, loaded) && Grows(loaded, blobs)
      ensures forall k :: 0 <= k < |chunk| && chunk[k] in blobs ==> chunk[k] in loaded
    {
      var rows := map id | id in chunk && id in blobs :: blobs[id];
      for i := 0 to |chunk|
        invariant Valid()
      {
        if chunk[i] in rows { CacheLoaded(chunk[i]); }
      }
      loaded := before + rows;
    }

    /** expandProfileSnapshot through the cached loader. */
    method ExpandSnapshot(fields: Fields) returns (r: Result<Fields>)
      requires Valid()
      modifies this`ids, this`bodies, this`bodyBytes
      ensures Valid()
      ensures r == Expand(blobs, fields)
    {
      var out := fields;
      var specs := [Incidents, Records];
      for i := 0 to 2
        invariant Valid()
        invariant Expand(blobs, fields) == match i
                                           case 0 => Expand(blobs, out)
                                           case 1 => ExpandSpec(blobs, out, Records)
                                           case _ => Ok(out)
      {
        var spec := specs[i];
        if RefsOf(spec) in out {
          var ids := DecodeIds(out[RefsOf(spec)]);
          if ids.None? { return Err; }
          var items := LoadBlobs(ids.value);
          if items.Err? { return Err; }
          out := (out - {RefsOf(spec)})[ArrayOf(spec) := Array(items.value)];
        }
      }
      return Ok(out);
    }

    /** deleteProfileBlobBatch: pinned ids survive; the first batch of a sweep empties the cache. */
    method DeleteBatch(batch: seq<Id>, clear: bool) returns (deleted: nat)
      requires Valid()
      requires clear || forall id :: id in batch && id in CachedIds(Cached()) ==> id in pinned
      modifies this`blobs, this`ids, this`bodies, this`bodyBytes
      ensures Valid()
      ensures blobs == old(blobs) - ((set id | id in batch) - pinned)
      ensures Cached() == if clear then EMPTY_CACHE else old(Cached())
      ensures deleted == |batch| - Pinned(batch, pinned)
    {
      if clear { ClearCache(); EmptyCacheAgrees(blobs); }
      var table;
      table, deleted := DeleteUnpinned(blobs, batch, pinned);
      CacheFrame(Cached(), blobs, table);
      blobs := table;
    }
  }

  /** The deletes of one batch, inside its transaction. */
  method DeleteUnpinned(blobs: Blobs, batch: seq<Id>, pinned: set<Id>) returns (table: Blobs, deleted: nat)
    ensures table == blobs - ((set id | id in batch) - pinned)
    ensures deleted == |batch| - Pinned(batch, pinned)
  {
    table, deleted := blobs, 0;
    for i := 0 to |batch|
      invariant table == blobs - ((set id | id in batch[..i]) - pinned)
      invariant deleted == i - Pinned(batch[..i], pinned)
    {
      assert batch[..i + 1] == batch[..i] + [batch[i]];
      PinnedAppend(batch[..i], batch[i], pinned);
      if batch[i] !in pinned {
        table := table - {batch[i]};
        deleted := deleted + 1;
      }
    }
    assert batch[..|batch|] == batch;
  }

  function Pinned(batch: seq<Id>, pinned: set<Id>): (n: nat)
    ensures n <= |batch|
  {
    if batch == [] then 0 else Pinned(batch[1..], pinned) + (if batch[0] in pinned then 1 else 0)
  }

  lemma {:induction false} PinnedAppend(batch: seq<Id>, id: Id, pinned: set<Id>)
    ensures Pinned(batch + [id], pinned) == Pinned(batch, pinned) + (if id in pinned then 1 else 0)
  {
    if batch != [] {
      assert (batch + [id])[1..] == batch[1..] + [id];
      PinnedAppend(batch[1..], id, pinned);
    }
  }

  lemma SpecCompactedTransfer(from: Fields, to: Fields, original: Fields, stored: Fields, spec: Spec, known: Blobs,
                              wider: Blobs)
    requires SpecCompacted(from, to, spec, known) && Grows(known, wider)
    requires SameField(from, original, ArrayOf(spec))
    requires SameField(to, stored, ArrayOf(spec)) && SameField(to, stored, RefsOf(spec))
    ensures SpecCompacted(original, stored, spec, wider)
  {
    if Moves(from, spec) {
      var ids: seq<Id> :| to[RefsOf(spec)] == EncodeIds(ids) && Names(known, ids, from[ArrayOf(spec)].items);
      assert Names(wider, ids, original[ArrayOf(spec)].items);
    }
  }

  /** Compacting one array after the other, on an object free of references, compacts the object. */
  lemma BothSpecsCompacted(fields: Fields, step: Fields, r: Fields, first: Blobs, last: Blobs)
    requires SpecCompacted(fields - REF_KEYS, step, Incidents, first)
    requires forall key :: key != ArrayOf(Incidents) && key != RefsOf(Incidents) ==>
        SameField(fields - REF_KEYS, step, key)
    requires SpecCompacted(step, r, Records, last)
    requires forall key :: key != ArrayOf(Records) && key != RefsOf(Records) ==> SameField(step, r, key)
    requires forall id :: id in first && id in last ==> first[id] == last[id]
    ensures IsCompaction(fields, r, first + last)
  {
    assert SameField(step, r, ArrayOf(Incidents)) && SameField(step, r, RefsOf(Incidents));
    SpecCompactedTransfer(fields - REF_KEYS, step, fields, r, Incidents, first, first + last);
    assert SameField(fields - REF_KEYS, step, ArrayOf(Records));
    SpecCompactedTransfer(step, r, fields, r, Records, last, first + last);
    forall name: string
      ensures SameField(fields, r, Plain(name))
    {
      assert SameField(fields - REF_KEYS, step, Plain(name)) && SameField(step, r, Plain(name));
    }
  }

  /** referencedProfileBlobs over one reading of each column: exactly the ids the rows refer to. */
  method ReferencedBlobs(columns: seq<seq<Fields>>) returns (referenced: set<Id>)
    ensures forall id :: id in referenced <==>
                         exists c, r :: 0 <= c < |columns| && 0 <= r < |columns[c]| && id in RefIds(columns[c][r])
  {
    referenced := {};
    for c := 0 to |columns|
      invariant forall id :: id in referenced <==>
                             exists d, r :: 0 <= d < c && 0 <= r < |columns[d]| && id in RefIds(columns[d][r])
    {
      ghost var before := referenced;
      for r := 0 to |columns[c]|
        invariant forall id :: id in referenced <==>
                               id in before || exists q :: 0 <= q < r && id in RefIds(columns[c][q])
      {
        referenced := referenced + RefIds(columns[c][r]);
      }
    }
  }
}

/** Profile snapshots as JSON objects whose two large arrays live in a content-addressed blob table.

    The two arrays are "profile_incidents" and "profile_records"; their reference fields are
    "_profile_incident_blobs" and "_profile_record_blobs". A SHA-256 digest is taken to be injective,
    so a digest is represented by the body it was computed from. */
module ProfileSnapshot {
  import opened Basics

  /** Row ids are positive; a negative number in a reference list is kept as text, which no list decodes. */
  type Id = nat

  /** One raw element of a JSON array. */
  datatype Raw = Number(n: nat) | NullItem | Text(text: string)

  datatype Json = Null | Array(items: seq<Raw>) | Other(text: string)

  datatype Spec = Incidents | Records

  datatype Key = ArrayOf(spec: Spec) | RefsOf(spec: Spec) | Plain(name: string)

  type Fields = map<Key, Json>

  type Blobs = map<Id, Raw>

  const REF_KEYS: set<Key> := {RefsOf(Incidents), RefsOf(Records)}

  // ---------------------------------------------------------------- references

  function EncodeIds(ids: seq<Id>): Json
  {
    Array(seq(|ids|, i requires 0 <= i < |ids| => Number(ids[i])))
  }

  /** Decoding into a list of 64-bit integers: null is the empty list, a null element is zero. */
  function DecodeIds(json: Json): Option<seq<Id>>
  {
    match json
    case Null => Some([])
    case Array(items) =>
      if forall i :: 0 <= i < |items| ==> !items[i].Text?
      then Some(seq(|items|, i requires 0 <= i < |items| => if items[i].Number? then items[i].n else 0))
      else None
    case Other(_) => None
  }

  lemma DecodeEncode(ids: seq<Id>)
    ensures DecodeIds(EncodeIds(ids)) == Some(ids)
  {
    assert DecodeIds(EncodeIds(ids)).value == ids;
  }

  /** A list decodes exactly when it has no text in it, item by item, a null as 0; null decodes as the empty list and
      nothing else that is not a list decodes. */
  lemma DecodesExactlyWhen(json: Json)
    ensures json.Null? ==> DecodeIds(json) == Some([])
    ensures json.Other? ==> DecodeIds(json) == None
    ensures json.Array? ==> (DecodeIds(json).Some? <==> forall i :: 0 <= i < |json.items| ==> !json.items[i].Text?)
    ensures json.Array? && DecodeIds(json).Some? ==>
              && |DecodeIds(json).value| == |json.items|
              && forall i :: 0 <= i < |json.items| ==>
                   json.items[i] == Number(DecodeIds(json).value[i])
                   || (json.items[i] == NullItem && DecodeIds(json).value[i] == 0)
  {
  }

  /** The ids one object refers to; an undecodable list refers to nothing. */
  function SpecRefs(fields: Fields, spec: Spec): set<Id>
  {
    if RefsOf(spec) in fields && DecodeIds(fields[RefsOf(spec)]).Some?
    then set id | id in DecodeIds(fields[RefsOf(spec)]).value
    else {}
  }

  function RefIds(fields: Fields): set<Id>
  {
    SpecRefs(fields, Incidents) + SpecRefs(fields, Records)
  }

  function Strip(fields: Fields): Fields
  {
    fields - REF_KEYS
  }

  // ---------------------------------------------------------------- expansion

  function Load(blobs: Blobs, ids: seq<Id>): Result<seq<Raw>>
  {
    if forall i :: 0 <= i < |ids| ==> ids[i] in blobs
    then Ok(seq(|ids|, i requires 0 <= i < |ids| => blobs[ids[i]]))
    else Err
  }

  function ExpandSpec(blobs: Blobs, fields: Fields, spec: Spec): Result<Fields>
  {
    if RefsOf(spec) !in fields then Ok(fields)
    else
      match DecodeIds(fields[RefsOf(spec)])
      case None => Err
      case Some(ids) =>
        match Load(blobs, ids)
        case Err => Err
        case Ok(items) => Ok((fields - {RefsOf(spec)})[ArrayOf(spec) := Array(items)])
  }

  function Expand(blobs: Blobs, fields: Fields): Result<Fields>
  {
    match ExpandSpec(blobs, fields, Incidents)
    case Err => Err
    case Ok(step) => ExpandSpec(blobs, step, Records)
  }

  /** Expansion reads the blob table only at the ids the object refers to. */
  lemma ExpandFrame(before: Blobs, after: Blobs, fields: Fields)
    requires forall id :: id in RefIds(fields) && id in before ==> id in after && after[id] == before[id]
    requires Expand(before, fields).Ok?
    ensures Expand(after, fields) == Expand(before, fields)
  {
    ExpandSpecFrame(before, after, fields, Incidents);
    var step := ExpandSpec(before, fields, Incidents).value;
    assert SpecRefs(step, Records) == SpecRefs(fields, Records);
    ExpandSpecFrame(before, after, step, Records);
  }

  lemma ExpandSpecFrame(before: Blobs, after: Blobs, fields: Fields, spec: Spec)
    requires forall id :: id in SpecRefs(fields, spec) && id in before ==> id in after && after[id] == before[id]
    requires ExpandSpec(before, fields, spec).Ok?
    ensures ExpandSpec(after, fields, spec) == ExpandSpec(before, fields, spec)
  {
    if RefsOf(spec) in fields {
      var ids := DecodeIds(fields[RefsOf(spec)]).value;
      assert forall i :: 0 <= i < |ids| ==> ids[i] in SpecRefs(fields, spec);
      assert forall i :: 0 <= i < |ids| ==> ids[i] in before && ids[i] in after && after[ids[i]] == before[ids[i]];
      assert Load(after, ids).value == Load(before, ids).value;
    }
  }

  /** Every id an expandable object refers to is present. */
  lemma ExpandRefsLive(blobs: Blobs, fields: Fields)
    requires Expand(blobs, fields).Ok?
    ensures RefIds(fields) <= blobs.Keys
  {
    var step := ExpandSpec(blobs, fields, Incidents).value;
    assert SpecRefs(step, Records) == SpecRefs(fields, Records);
  }

  // ---------------------------------------------------------------- compaction

  /** A field that is moved out: present, an array, and not empty. */
  predicate Moves(fields: Fields, spec: Spec)
  {
    ArrayOf(spec) in fields && fields[ArrayOf(spec)].Array? && fields[ArrayOf(spec)].items != []
  }

  /** The ids stand for the items, as far as `known` tells. */
  predicate Names(known: Blobs, ids: seq<Id>, items: seq<Raw>)
  {
    && |ids| == |items|
    && forall i :: 0 <= i < |ids| ==> ids[i] in known && known[ids[i]] == items[i]
  }

  predicate SameField(a: Fields, b: Fields, key: Key)
  {
    (key in a <==> key in b) && (key in a ==> a[key] == b[key])
  }

  /** One array is replaced by the ids of its items, or left as it was; reported references are dropped. */
  ghost predicate SpecCompacted(original: Fields, stored: Fields, spec: Spec, known: Blobs)
  {
    if Moves(original, spec) then
      && ArrayOf(spec) !in stored
      && RefsOf(spec) in stored
      && exists ids: seq<Id> ::
          stored[RefsOf(spec)] == EncodeIds(ids) && Names(known, ids, original[ArrayOf(spec)].items)
    else
      RefsOf(spec) !in stored && SameField(original, stored, ArrayOf(spec))
  }

  ghost predicate IsCompaction(original: Fields, stored: Fields, known: Blobs)
  {
    && SpecCompacted(original, stored, Incidents, known)
    && SpecCompacted(original, stored, Records, known)
    && forall name: string :: SameField(original, stored, Plain(name))
  }

  lemma SpecRoundTrip(original: Fields, stored: Fields, spec: Spec, known: Blobs, blobs: Blobs)
    requires SpecCompacted(original, stored, spec, known)
    requires forall id :: id in known ==> id in blobs && blobs[id] == known[id]
    ensures ExpandSpec(blobs, stored, spec).Ok?
    ensures var step := ExpandSpec(blobs, stored, spec).value;
            && RefsOf(spec) !in step
            && SameField(step, original, ArrayOf(spec))
            && forall key :: key != ArrayOf(spec) && key != RefsOf(spec) ==> SameField(step, stored, key)
    ensures SpecRefs(stored, spec) <= known.Keys
  {
    if Moves(original, spec) {
      var ids: seq<Id> :| stored[RefsOf(spec)] == EncodeIds(ids) && Names(known, ids, original[ArrayOf(spec)].items);
      DecodeEncode(ids);
      assert Load(blobs, ids) == Ok(original[ArrayOf(spec)].items) by {
        assert Load(blobs, ids).value == original[ArrayOf(spec)].items;
      }
    }
  }

  /** Round trip: whatever was compacted expands to the input without its reported reference fields. */
  lemma CompactThenExpand(original: Fields, stored: Fields, known: Blobs, blobs: Blobs)
    requires IsCompaction(original, stored, known)
    requires forall id :: id in known ==> id in blobs && blobs[id] == known[id]
    ensures Expand(blobs, stored) == Ok(Strip(original))
    ensures RefIds(stored) <= known.Keys
  {
    SpecRoundTrip(original, stored, Incidents, known, blobs);
    var step := ExpandSpec(blobs, stored, Incidents).value;
    assert SpecCompacted(original, step, Records, known) by {
      assert SameField(step, stored, ArrayOf(Records)) && SameField(step, stored, RefsOf(Records));
    }
    SpecRoundTrip(original, step, Records, known, blobs);
    SpecRoundTrip(original, stored, Records, known, blobs);
    var all := ExpandSpec(blobs, step, Records).value;
    forall key: Key
      ensures SameField(all, Strip(original), key)
    {
      match key
      case ArrayOf(Incidents) => assert SameField(all, step, key);
      case ArrayOf(Records) =>
      case RefsOf(Incidents) => assert SameField(all, step, key);
      case RefsOf(Records) =>
      case Plain(name) => assert SameField(all, step, key) && SameField(step, stored, key)
          && SameField(original, stored, Plain(name));
    }
    SameFieldsEqual(all, Strip(original));
  }

  lemma SameFieldsEqual(a: Fields, b: Fields)
    requires forall key: Key :: SameField(a, b, key)
    ensures a == b
  {
    assert forall key :: key in a ==> SameField(a, b, key);
    assert forall key :: key in b ==> SameField(a, b, key);
  }

  /** The original object itself comes back exactly when it reported no reference field of its own. */
  lemma RoundTripExactly(original: Fields, stored: Fields, known: Blobs, blobs: Blobs)
    requires IsCompaction(original, stored, known)
    requires forall id :: id in known ==> id in blobs && blobs[id] == known[id]
    ensures Expand(blobs, stored) == Ok(original) <==> original.Keys !! REF_KEYS
  {
    CompactThenExpand(original, stored, known, blobs);
    if original.Keys !! REF_KEYS {
      assert Strip(original) == original;
    } else {
      assert Strip(original).Keys !! REF_KEYS;
    }
  }

  /** The background pass compacts rows that are already compact, and a compact row carries its own
      reference fields, so the second compaction drops them: the row keeps its meaning exactly when the
      first compaction moved nothing. */
  lemma RecompactionKeepsMeaning(original: Fields, stored: Fields, again: Fields, known: Blobs, knownAgain: Blobs,
                                 blobs: Blobs)
    requires IsCompaction(original, stored, known)
    requires IsCompaction(stored, again, knownAgain)
    requires forall id :: id in known ==> id in blobs && blobs[id] == known[id]
    requires forall id :: id in knownAgain ==> id in blobs && blobs[id] == knownAgain[id]
    ensures Expand(blobs, again) == Expand(blobs, stored)
            <==> !Moves(original, Incidents) && !Moves(original, Records)
  {
    CompactThenExpand(original, stored, known, blobs);
    CompactThenExpand(stored, again, knownAgain, blobs);
    if !Moves(original, Incidents) && !Moves(original, Records) {
      forall key: Key
        ensures SameField(Strip(stored), Strip(original), key)
      {
        if key.Plain? { assert SameField(original, stored, Plain(key.name)); }
      }
      SameFieldsEqual(Strip(stored), Strip(original));
    } else if Moves(original, Incidents) {
      assert ArrayOf(Incidents) in Strip(original) && ArrayOf(Incidents) !in Strip(stored);
    } else {
      assert ArrayOf(Records) in Strip(original) && ArrayOf(Records) !in Strip(stored);
    }
  }

  // ---------------------------------------------------------------- one record

  function OneRecord(body: Raw): Fields
  {
    map[ArrayOf(Records) := Array([body])]
  }

  function OneRef(id: Id): Fields
  {
    map[RefsOf(Records) := EncodeIds([id])]
  }

  lemma OneRefCompacts(body: Raw, id: Id, known: Blobs)
    requires id in known && known[id] == body
    ensures IsCompaction(OneRecord(body), OneRef(id), known) && Strip(OneRecord(body)) == OneRecord(body)
  {
    assert Names(known, [id], OneRecord(body)[ArrayOf(Records)].items);
  }

  lemma OneRefExpands(blobs: Blobs, id: Id)
    ensures Expand(blobs, OneRef(id)) == if id in blobs then Ok(OneRecord(blobs[id])) else Err
  {
    DecodeEncode([id]);
    assert Load(blobs, [id]) == if id in blobs then Ok([blobs[id]]) else Err by {
      assert [id][0] == id;
      if id in blobs { assert Load(blobs, [id]).value == [blobs[id]]; }
    }
    assert ExpandSpec(blobs, OneRef(id), Incidents) == Ok(OneRef(id));
    if id in blobs {
      assert (OneRef(id) - {RefsOf(Records)})[ArrayOf(Records) := Array([blobs[id]])] == OneRecord(blobs[id]);
    }
  }

  /** The pass at work on one record: the compact row expands to the record, and compacted again to nothing. */
  lemma RecompactionDropsARecord(body: Raw, id: Id)
    ensures IsCompaction(OneRecord(body), OneRef(id), map[id := body]) && IsCompaction(OneRef(id), map[], map[])
    ensures Expand(map[id := body], OneRef(id)) == Ok(OneRecord(body)) && Expand(map[id := body], map[]) == Ok(map[])
  {
    OneRefCompacts(body, id, map[id := body]);
    OneRefExpands(map[id := body], id);
  }
}

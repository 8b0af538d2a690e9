/** Whole runs of the blob table and its collector, read from their steps: which blobs a sweep keeps and why, and what
    every row reads back as. */
module ProfileBlobHistory {
  import opened Basics
  import opened ProfileSnapshot
  import opened ProfileBlobStore
  import opened ProfileBlobSweep

  ghost predicate Moves(order: seq<Column>, careful: bool, states: seq<State>, steps: seq<Step>, i: nat)
  {
    && i < |steps| && i + 1 < |states| && Enabled(order, states[i], steps[i])
    && states[i + 1] == Apply(order, states[i], steps[i]) && (careful ==> Allowed(order, states[i], steps[i]))
  }

  /** The steps, with the state before each of them and the one they end in; a careful run takes allowed steps only. */
  ghost predicate Run(order: seq<Column>, careful: bool, states: seq<State>, steps: seq<Step>)
  {
    && |states| == |steps| + 1 && states[0] == EMPTY
    && forall i: nat :: i < |steps| ==> Moves(order, careful, states, steps, i)
  }

  lemma {:induction false} RunInv(order: seq<Column>, states: seq<State>, steps: seq<Step>, n: nat)
    requires Run(order, true, states, steps) && GoodOrder(order) && n <= |steps|
    ensures Inv(order, states[n])
  {
    if n == 0 {
      EmptyInv(order);
    } else {
      RunInv(order, states, steps, n - 1);
      assert Moves(order, true, states, steps, n - 1);
      StepKeepsInv(order, states[n - 1], steps[n - 1]);
    }
  }

  // ---------------------------------------------------------------- marks and pins

  predicate EndsSweep(step: Step)
  {
    step.StartSweep? || step.FinishSweep? || step.Restart?
  }

  /** No sweep began or ended after step `m` and before step `n`. */
  ghost predicate SameSweep(steps: seq<Step>, m: nat, n: nat)
  {
    forall j :: m < j < n && j < |steps| ==> !EndsSweep(steps[j])
  }

  ghost predicate Refers(s: State, column: Column, id: Id)
  {
    exists key :: key in s.rows && key.column == column && id in RefIds(s.rows[key].stored)
  }

  /** At step `m` a column was scanned in which some row referred to the blob. */
  ghost predicate SeenAt(order: seq<Column>, states: seq<State>, steps: seq<Step>, m: nat, id: Id)
  {
    && m < |steps| < |states| && steps[m].ScanColumn? && states[m].sweep.Scanning? && states[m].sweep.done < |order|
    && Refers(states[m], order[states[m].sweep.done], id)
  }

  /** At step `m` a writer pinned the blob. */
  ghost predicate PinnedAt(states: seq<State>, steps: seq<Step>, m: nat, id: Id)
  {
    && m < |steps| < |states|
    && ((steps[m].Pin? && steps[m].id == id)
        || (steps[m].LoosePin? && steps[m].c in states[m].callers && states[m].callers[steps[m].c].id == id))
  }

  lemma MarksStep(order: seq<Column>, s: State, step: Step, id: Id)
    requires Enabled(order, s, step) && id in Marked(Apply(order, s, step))
    ensures || (id in Marked(s) && !EndsSweep(step))
            || (step.ScanColumn? && Refers(s, order[s.sweep.done], id))
  {
    if step.ScanColumn? && id !in Marked(s) {
      assert id in Marks(s, order[s.sweep.done]);
    }
  }

  lemma PinsStep(order: seq<Column>, s: State, step: Step, id: Id)
    requires Enabled(order, s, step) && id in Apply(order, s, step).pinned
    ensures || (id in s.pinned && !EndsSweep(step))
            || (step.Pin? && step.id == id)
            || (step.LoosePin? && s.callers[step.c].id == id)
  {
  }

  /** A sweep marks only what a row of the column refers to when it scans the column. */
  lemma {:induction false} MarkedWasReferenced(order: seq<Column>, careful: bool, states: seq<State>, steps: seq<Step>,
                                               n: nat, id: Id)
    requires Run(order, careful, states, steps) && n <= |steps| && id in Marked(states[n])
    ensures exists m: nat :: m < n && SeenAt(order, states, steps, m, id) && SameSweep(steps, m, n)
  {
    if n > 0 {
      var last := n - 1;
      assert Moves(order, careful, states, steps, last);
      MarksStep(order, states[last], steps[last], id);
      if id in Marked(states[last]) && !EndsSweep(steps[last]) {
        MarkedWasReferenced(order, careful, states, steps, last, id);
        var m: nat :| m < last && SeenAt(order, states, steps, m, id) && SameSweep(steps, m, last);
        assert SameSweep(steps, m, n);
      } else {
        assert SeenAt(order, states, steps, last, id) && SameSweep(steps, last, n);
      }
    }
  }

  /** What is pinned was pinned by a writer during this sweep. */
  lemma {:induction false} PinnedWasAsked(order: seq<Column>, careful: bool, states: seq<State>, steps: seq<Step>,
                                          n: nat, id: Id)
    requires Run(order, careful, states, steps) && n <= |steps| && id in states[n].pinned
    ensures exists m: nat :: m < n && PinnedAt(states, steps, m, id) && SameSweep(steps, m, n)
  {
    if n > 0 {
      var last := n - 1;
      assert Moves(order, careful, states, steps, last);
      PinsStep(order, states[last], steps[last], id);
      if id in states[last].pinned && !EndsSweep(steps[last]) {
        PinnedWasAsked(order, careful, states, steps, last, id);
        var m: nat :| m < last && PinnedAt(states, steps, m, id) && SameSweep(steps, m, last);
        assert SameSweep(steps, m, n);
      } else {
        assert PinnedAt(states, steps, last, id) && SameSweep(steps, last, n);
      }
    }
  }

  lemma SeenSince(states: seq<State>, steps: seq<Step>, start: nat, id: Id)
    requires Run(SCAN_ORDER, true, states, steps) && start < |steps| && steps[start].StartSweep?
    requires id in Marked(states[|steps|])
    ensures exists m: nat :: start < m && SeenAt(SCAN_ORDER, states, steps, m, id)
  {
    MarkedWasReferenced(SCAN_ORDER, true, states, steps, |steps|, id);
    var m: nat :| m < |steps| && SeenAt(SCAN_ORDER, states, steps, m, id) && SameSweep(steps, m, |steps|);
    assert start < m;
  }

  lemma PinnedSince(states: seq<State>, steps: seq<Step>, start: nat, id: Id)
    requires Run(SCAN_ORDER, true, states, steps) && start < |steps| && steps[start].StartSweep?
    requires id in states[|steps|].pinned
    ensures exists m: nat :: start < m && PinnedAt(states, steps, m, id)
  {
    PinnedWasAsked(SCAN_ORDER, true, states, steps, |steps|, id);
    var m: nat :| m < |steps| && PinnedAt(states, steps, m, id) && SameSweep(steps, m, |steps|);
    assert start < m;
  }

  lemma LeftInSweep(order: seq<Column>, t: State, id: Id)
    requires SweepSound(order, t) && t.sweep.Deleting? && t.sweep.rest == [] && t.holders == map[] && id in t.blobs
    ensures id in Marked(t) || id in t.pinned || exists c :: c in t.callers && t.callers[c].id == id
  {
    if id !in Marked(t) && id !in t.pinned { assert id in LooseIds(t); }
  }

  /** Completeness: once a sweep has gone through its candidates, every blob left was, since the sweep began, referred
      to by a row of a column as it was scanned, or pinned by a writer, or a caller without the lock has yet to pin
      it. */
  lemma FinishedSweepLeavesNoGarbage(states: seq<State>, steps: seq<Step>, start: nat, id: Id)
    requires Run(SCAN_ORDER, true, states, steps) && start < |steps| && steps[start].StartSweep?
    requires var t := states[|steps|];
             t.sweep.Deleting? && t.sweep.rest == [] && t.holders == map[] && id in t.blobs
    ensures || (exists m: nat :: start < m && SeenAt(SCAN_ORDER, states, steps, m, id))
            || (exists m: nat :: start < m && PinnedAt(states, steps, m, id))
            || (exists c :: c in states[|steps|].callers && states[|steps|].callers[c].id == id)
  {
    ScanOrderIsGood();
    RunInv(SCAN_ORDER, states, steps, |steps|);
    LeftInSweep(SCAN_ORDER, states[|steps|], id);
    if id in Marked(states[|steps|]) {
      SeenSince(states, steps, start, id);
    } else if id in states[|steps|].pinned {
      PinnedSince(states, steps, start, id);
    }
  }

  /** One batch takes at most 500 candidates, the next ones, and fewer only when no more are left; of these it deletes
      the unpinned, and nothing else. */
  lemma BatchDeletes(order: seq<Column>, s: State, id: Id)
    requires Enabled(order, s, DeleteSome)
    ensures var t := Apply(order, s, DeleteSome);
            && |t.sweep.rest| == (if |s.sweep.rest| <= 500 then 0 else |s.sweep.rest| - 500)
            && t.sweep.rest == s.sweep.rest[|s.sweep.rest| - |t.sweep.rest|..]
            && (id in t.blobs <==>
                  id in s.blobs && (id in s.pinned || id !in s.sweep.rest[..|s.sweep.rest| - |t.sweep.rest|]))
  {
  }

  /** A sweep begins and ends without touching blobs, rows or cache, and forgets its pins. */
  lemma SweepBounds(order: seq<Column>, s: State, step: Step)
    requires Enabled(order, s, step) && (step.StartSweep? || step.FinishSweep?)
    ensures var t := Apply(order, s, step);
            t.blobs == s.blobs && t.rows == s.rows && t.cache == s.cache && t.pinned == {} && Marked(t) == {}
  {
  }

  // ---------------------------------------------------------------- the plain store

  type Contents = map<RowKey, Fields>

  /** The journal has this event, time and text already. */
  ghost predicate InJournal(s: State, event: nat, at: nat, stored: Fields)
  {
    exists n: nat :: HasEntry(s, n, event, at, stored)
  }

  predicate HasEntry(s: State, n: nat, event: nat, at: nat, stored: Fields)
  {
    && RowKey(Journal, n) in s.rows
    && s.rows[RowKey(Journal, n)].event == event && s.rows[RowKey(Journal, n)].at == at
    && s.rows[RowKey(Journal, n)].stored == stored
  }

  /** A store that keeps whole objects and knows no blobs: what each step leaves in it. */
  ghost function PlainNext(p: Contents, s: State, step: Step): Contents
  {
    match step
    case WriteRow(_, key, original, _) => p[key := original - REF_KEYS]
    case RecordEvent(_, e, at, original, stored, j) =>
      var journaled := if InJournal(s, e, at, stored) then p else p[RowKey(Journal, j) := original - REF_KEYS];
      journaled[RowKey(Events, e) := original - REF_KEYS]
    case TouchEvent(_, e, _, j) =>
      if RowKey(Events, e) !in p || RowKey(Events, e) !in s.rows then p
      else
        var row := s.rows[RowKey(Events, e)];
        if InJournal(s, row.event, row.at, row.stored) then p else p[RowKey(Journal, j) := p[RowKey(Events, e)]]
    case JournalVerification(w, v) =>
      if RowKey(Workers, w) in p then p[RowKey(Verifications, v) := p[RowKey(Workers, w)]] else p
    case WritePlain(key, fields) => p[key := fields]
    case PlainEvent(e, at, fields, j) =>
      var journaled := if InJournal(s, e, at, fields) then p else p[RowKey(Journal, j) := fields];
      journaled[RowKey(Events, e) := fields]
    case DeleteRow(key) => p - {key}
    case _ => p
  }

  ghost function PlainAfter(states: seq<State>, steps: seq<Step>, n: nat): Contents
    requires n <= |steps| <= |states|
  {
    if n == 0 then map[] else PlainNext(PlainAfter(states, steps, n - 1), states[n - 1], steps[n - 1])
  }

  ghost predicate Alike(s: State, p: Contents)
  {
    forall key :: (key in s.rows <==> key in p) && (key in s.rows ==> s.rows[key].content == p[key])
  }

  lemma JournaledIsInJournal(s: State, row: Row)
    ensures Journaled(s, row) <==> InJournal(s, row.event, row.at, row.stored)
  {
    if Journaled(s, row) {
      var key :| key in s.rows && key.column == Journal
                 && s.rows[key].event == row.event && s.rows[key].at == row.at && s.rows[key].stored == row.stored;
      assert HasEntry(s, key.n, row.event, row.at, row.stored);
    }
    if n: nat :| HasEntry(s, n, row.event, row.at, row.stored) {
      assert RowKey(Journal, n) in s.rows;
    }
  }

  predicate OfRows(step: Step)
  {
    || step.WriteRow? || step.RecordEvent? || step.TouchEvent? || step.JournalVerification? || step.WritePlain?
    || step.PlainEvent? || step.DeleteRow?
  }

  lemma RowsUntouched(order: seq<Column>, s: State, step: Step)
    requires Enabled(order, s, step) && !OfRows(step)
    ensures Apply(order, s, step).rows == s.rows
  {
  }

  lemma EventAlike(s: State, p: Contents, e: nat, row: Row, j: nat)
    requires Alike(s, p) && row.event == e
    ensures var journaled := if InJournal(s, e, row.at, row.stored) then p else p[RowKey(Journal, j) := row.content];
            Alike(Recorded(s, e, row, j), journaled[RowKey(Events, e) := row.content])
  {
    JournaledIsInJournal(s, row);
  }

  lemma TouchAlike(s: State, p: Contents, e: nat, j: nat)
    requires Alike(s, p) && RowKey(Events, e) in s.rows
    ensures var row := s.rows[RowKey(Events, e)];
            Alike(s.(rows := JournalCopy(s, row, j)),
                  if InJournal(s, row.event, row.at, row.stored) then p else p[RowKey(Journal, j) := row.content])
  {
    JournaledIsInJournal(s, s.rows[RowKey(Events, e)]);
  }

  predicate OfEvents(step: Step)
  {
    step.RecordEvent? || step.PlainEvent? || step.TouchEvent?
  }

  lemma EventStepAlike(order: seq<Column>, s: State, p: Contents, step: Step)
    requires Enabled(order, s, step) && Alike(s, p) && OfEvents(step)
    ensures Alike(Apply(order, s, step), PlainNext(p, s, step))
  {
    match step
    case RecordEvent(_, e, at, original, stored, j) => EventAlike(s, p, e, Row(stored, Strip(original), e, at), j);
    case PlainEvent(e, at, fields, j) => EventAlike(s, p, e, Row(fields, fields, e, at), j);
    case TouchEvent(_, e, _, j) => TouchAlike(s, p, e, j);
  }

  lemma AlikeNext(order: seq<Column>, s: State, p: Contents, step: Step)
    requires Enabled(order, s, step) && Alike(s, p)
    ensures Alike(Apply(order, s, step), PlainNext(p, s, step))
  {
    if OfEvents(step) {
      EventStepAlike(order, s, p, step);
    } else if OfRows(step) {
      PutAlike(order, s, p, step);
    } else {
      RowsUntouched(order, s, step);
    }
  }

  lemma PutAlike(order: seq<Column>, s: State, p: Contents, step: Step)
    requires Enabled(order, s, step) && Alike(s, p)
    requires step.WriteRow? || step.WritePlain? || step.JournalVerification? || step.DeleteRow?
    ensures Alike(Apply(order, s, step), PlainNext(p, s, step))
  {
  }

  lemma {:induction false} RunAlike(order: seq<Column>, careful: bool, states: seq<State>, steps: seq<Step>, n: nat)
    requires Run(order, careful, states, steps) && n <= |steps|
    ensures Alike(states[n], PlainAfter(states, steps, n))
  {
    if n > 0 {
      RunAlike(order, careful, states, steps, n - 1);
      assert Moves(order, careful, states, steps, n - 1);
      AlikeNext(order, states[n - 1], PlainAfter(states, steps, n - 1), steps[n - 1]);
    }
  }

  /** Refinement: in every run whose steps without the lock keep to their guards, and at every moment of it, the rows of
      the four columns expand to exactly what a store without blobs would hold after the same steps. */
  lemma RowsReadBackAsWritten(states: seq<State>, steps: seq<Step>, n: nat)
    requires Run(SCAN_ORDER, true, states, steps) && n <= |steps|
    ensures states[n].rows.Keys == PlainAfter(states, steps, n).Keys
    ensures forall key :: key in states[n].rows ==>
              Expand(states[n].blobs, states[n].rows[key].stored) == Ok(PlainAfter(states, steps, n)[key])
  {
    ScanOrderIsGood();
    RunInv(SCAN_ORDER, states, steps, n);
    RunAlike(SCAN_ORDER, true, states, steps, n);
  }

  /** A reader inside the lock can read any row, and sees every blob the row refers to. */
  lemma ReadersSeeTheBlobs(order: seq<Column>, s: State, h: nat, key: RowKey)
    requires Inv(order, s) && h in s.holders && key in s.rows
    ensures Enabled(order, s, ReadRow(h, key))
    ensures var seen := Apply(order, s, ReadRow(h, key)).holders[h].seen;
            forall id :: id in RefIds(s.rows[key].stored) ==> id in seen && id in s.blobs && seen[id] == s.blobs[id]
  {
    ExpandRefsLive(s.blobs, s.rows[key].stored);
  }

  /** Every recorded event is in the journal with its time and text. */
  lemma EventsAreJournaled(order: seq<Column>, s: State, step: Step)
    requires Enabled(order, s, step) && (step.RecordEvent? || step.PlainEvent?)
    ensures InJournal(Apply(order, s, step), step.e, step.at, if step.RecordEvent? then step.stored else step.fields)
  {
    var stored := if step.RecordEvent? then step.stored else step.fields;
    var row := Row(stored, if step.RecordEvent? then Strip(step.original) else step.fields, step.e, step.at);
    JournaledIsInJournal(s, row);
    if n: nat :| HasEntry(s, n, step.e, step.at, stored) {
      assert HasEntry(Apply(order, s, step), n, step.e, step.at, stored);
    } else {
      assert HasEntry(Apply(order, s, step), step.j, step.e, step.at, stored);
    }
  }
}

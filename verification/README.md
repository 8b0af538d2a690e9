# Litestream soak control plane: a verified model

The control plane of the Litestream soak fleet keeps its state in SQLite behind one writer connection, while
readers, maintenance passes and HTTP handlers run beside it. This project models the parts of it where that
concurrency, or a cache, or a counter that must stay exact, makes correctness hard to see, and proves what each of
them promises. `dafny verify dfyconfig.toml` checks everything.

Tables are maps from id to row, a transaction or a critical section is one atomic step, SHA-256 digests are taken
to be injective (a digest is represented by what it was computed from), and JSON objects are maps or records of
their fields. Code that updates fields or runs loops is a class or a method proved against a specification
function; protocols between threads are transition systems whose invariants hold in every run.

| component | files |
|---|---|
| Profile snapshots in a content-addressed blob table with a concurrent collector | `ProfileSnapshot`, `ProfileBlobStore`, `ProfileBlobSweep`, `ProfileBlobHistory`, `ProfileBlobLoss`, `ProfileBlobSweepRuns` |
| Runtime evidence: shared records with use counts, incident owners, batched compaction, pruning | `EvidenceTables`, `EvidenceCounts`, `EvidenceRuns`, `EvidenceCompactor`, `EvidencePruning` |
| Cost meter: counters with restart epochs, deltas, hourly buckets | `CostCounters`, `CostOrder`, `CostMeter` |
| Rollouts that survive crashes | `Deployments`, `Rollout`, `RolloutHistory`, `RolloutRuns` |
| Failure streaks and corroboration | `FailureStreaks`, `Corroboration` |
| Deployment observer, comparison cache, evidence hold | `DeploymentObserver`, `ComparisonCache`, `ComparisonHistory`, `EvidenceHold` |
| Churn workloads and their engine | `Churn`, `ChurnEngine` |
| Shared types, finite sums | `Basics`, `Sums` |

## Where the code does not do what it seems to

Each of these has a lemma with a concrete input or run, and one with the exact condition.

- The background pass re-applies `compactProfileSnapshot` to rows that are already compact, which drops their own
  references (`ProfileSnapshot.RecompactionDropsARecord`); a row keeps its meaning exactly when the first compaction
  had moved nothing (`ProfileSnapshot.RecompactionKeepsMeaning`).
- `RecordUniqueEventAt`, which only tests call, stores blobs without holding the sweep lock; the event itself it writes
  through `RecordEventAt`, under the lock. Obtaining and pinning a blob that way never leads to a loss
  (`ProfileBlobLoss.LooseStoreLosesNothing`); entering it into the cache does, exactly when its guard fails
  (`ProfileBlobLoss.LooseCacheLosesExactlyWhenUncovered`, with the run
  `ProfileBlobSweepRuns.StoreWithoutTheLockLosesABlob`).
- An occurrences-only event update re-fires the journal trigger, which copies references without pinning them. It can
  be followed by a lost blob exactly when the copy is new, the journal has been scanned and some copied id is neither
  marked, pinned, owed nor out of the sweep's reach (`ProfileBlobLoss.TouchLosesExactlyWhenUncovered`). The journal row
  that would make the copy old is lost when the background pass strips it, as in the run
  `ProfileBlobSweepRuns.UncoveredTouchLosesABlob`.
- `RecordRuntimeEvidence` does not look for reserved fields (`EvidenceCounts.ForgedReferenceBreaksCounts`); use counts
  stay exact exactly when a report forges no reference (`EvidenceCounts.RecordKeepsCountsExactlyWhen`).
- Pruning the row that owns an incident drops it although another row reported it
  (`EvidenceCounts.PrunedOwnerLosesAnIncident`, `EvidenceCounts.PruneKeepsOwnersExactlyWhen`).
- Litestream counters reported without an epoch are billed again after a fall
  (`CostCounters.BlankEpochsDependOnOrder`); the bill meets the total of the named epochs exactly when no value above 0
  follows such a fall (`CostCounters.BillMeetsNamedTotalExactlyWhen`).
- A level kept without an epoch makes the order of later reports matter although these all name one epoch
  (`CostOrder.UnnamedLevelMakesOrderMatter`); it does not matter exactly when their values agree on whether they fall
  below that level (`CostOrder.ReorderedReportsBillAlikeExactlyWhen`).
- A build that updates its row can leave a recorded deployment that nobody rolls out
  (`RolloutRuns.FailedBuildRevivesASupersededRow`), exactly when the update uncovers or changes a row that is not secure
  (`Rollout.FinishLosesExactlyWhenCareless`). A row marked ready but never recorded is not resumed after a crash
  (`RolloutRuns.CrashBeforeTheRecordIsNotResumed`), and only such a row is not
  (`RolloutHistory.NoRecordedRolloutIsLost`).
- `walkConsecutiveActionable` documents that a decided verdict cannot be changed by more history. A positive one
  cannot; a negative one can (`Corroboration.DecidedVerdictTurnedAround`), exactly as stated in
  `Corroboration.OlderChecksCorroborateExactlyWhen`.
- A `Resume` during a `Pause` is not seen by it (`ChurnEngine.ResumeDuringPauseIsMissed`), so the `Pause` returns while
  the engine runs (`ChurnEngine.PauseHoldsExactlyWhilePaused`).

## Model

| member | source | states |
|---|---|---|
| `ProfileSnapshot.DecodeEncode` | internal/model/profile_blobs.go:185-200 | decoding an encoded reference list gives the list back |
| `ProfileSnapshot.DecodesExactlyWhen` | internal/model/profile_blobs.go:596-603 | a reference list decodes if and only if it holds numbers and nulls, item by item, a null as 0; null is the empty list |
| `ProfileSnapshot.ExpandFrame` | internal/model/profile_blobs.go:228-261 | expansion depends only on the blobs an object refers to |
| `ProfileSnapshot.ExpandRefsLive` | internal/model/profile_blobs.go:228-261 | an object that expands refers to no missing blob |
| `ProfileSnapshot.CompactThenExpand` | internal/model/profile_blobs.go:161-261 | round trip: every compaction expands to the input without reference fields the input itself carried, over any table that still has the blobs stored for it |
| `ProfileSnapshot.RoundTripExactly` | internal/model/profile_blobs.go:161-261 | the input itself comes back if and only if it carried no reference field |
| `ProfileSnapshot.RecompactionDropsARecord` | internal/model/profile_blobs.go:421-433 | one record, compacted twice: the first row expands to it, the second to nothing |
| `ProfileSnapshot.RecompactionKeepsMeaning` | internal/model/profile_blobs.go:383-432 | compacting a compact row keeps its meaning if and only if the first compaction moved nothing |
| `ProfileBlobStore.CachePutAgrees` | internal/model/profile_blobs.go:126-141 | storing keeps the cache in agreement with the table, its byte count equal to the sum of its bodies, and caches no other id |
| `ProfileBlobStore.CachePutBounded` | internal/model/profile_blobs.go:126-141 | an entry that fits into 64 MiB keeps all the others; one that does not is left alone in the cache |
| `ProfileBlobStore.CacheFrame` | internal/model/profile_blobs.go:93-141 | a table that keeps every cached row keeps the agreement |
| `ProfileBlobStore.BlobDB.StoreBlob` | internal/model/profile_blobs.go:211-226 | the id returned is live with exactly this body, no other row changes, digests stay unique, and the id is pinned while pinning |
| `ProfileBlobStore.BlobDB.StoreAll` | internal/model/profile_blobs.go:180-200 | one id per item, in order, each naming its item |
| `ProfileBlobStore.BlobDB.CompactSnapshot` | internal/model/profile_blobs.go:161-209 | the result is a compaction of the input by blobs this call stored, all pinned while pinning, and expands back |
| `ProfileBlobStore.BlobDB.CacheStore` | internal/model/profile_blobs.go:126-141 | the cache is dropped when it would outgrow 64 MiB, then takes the entry |
| `ProfileBlobStore.BlobDB.LoadBlobs` | internal/model/profile_blobs.go:263-315 | through the cache and chunks of 500, every position gets its own blob, repeats included; an error exactly when some id is missing |
| `ProfileBlobStore.BlobDB.LoadChunkInto` | internal/model/profile_blobs.go:284-306 | a chunk loads every wanted row that exists, and nothing that is not in the table |
| `ProfileBlobStore.BlobDB.ExpandSnapshot` | internal/model/profile_blobs.go:228-261 | the cached expansion equals the uncached one, errors included |
| `ProfileBlobStore.BlobDB.DeleteBatch` | internal/model/profile_blobs.go:546-571 | exactly the unpinned ids of the batch go, the cache still agrees, and the count is right |
| `ProfileBlobStore.DeleteUnpinned` | internal/model/profile_blobs.go:552-570 | the loop deletes exactly the batch without the pinned ids |
| `ProfileBlobStore.ReferencedBlobs` | internal/model/profile_blobs.go:573-607 | an id is marked if and only if some row of some column refers to it |
| `ProfileBlobSweep.StepKeepsInv` | internal/model/profile_blobs.go:472-607 | every allowed step of writers, readers, triggers, deletions, the sweep and callers without the lock keeps the invariant: rows expand to what was written, ids in scanned columns are safe from the sweep, the cache agrees |
| `ProfileBlobSweep.RunKeepsInv` | internal/model/profile_blobs.go:472-607 | so does every run |
| `ProfileBlobSweep.NoRunLosesABlob` | internal/model/profile_blobs.go:472-571 | safety: in every interleaving, every row of all four columns expands to its content, no id dangles, and the cache agrees with the table |
| `ProfileBlobHistory.FinishedSweepLeavesNoGarbage` | internal/model/profile_blobs.go:472-523 | in every run, once a sweep has gone through its candidates, each blob left was referred to, since the sweep began, by a row of a column as it was scanned, or was pinned by a writer, or a caller without the lock has yet to pin it |
| `ProfileBlobHistory.MarkedWasReferenced` | internal/model/profile_blobs.go:573-607 | in every run a sweep has marked an id only if, when it scanned some column, a row of that column referred to it |
| `ProfileBlobHistory.PinnedWasAsked` | internal/model/profile_blobs.go:72-91 | in every run a pinned id was pinned by a writer since the sweep began |
| `ProfileBlobHistory.RowsReadBackAsWritten` | internal/model/profile_blobs.go:161-261 | refinement: in every run, at every moment, the rows of the four columns are those of a store without blobs that took the same steps, and each expands to exactly what that store holds |
| `ProfileBlobHistory.ReadersSeeTheBlobs` | internal/model/profile_blobs.go:263-315 | a reader inside the lock can read any row and sees every blob it refers to |
| `ProfileBlobHistory.EventsAreJournaled` | internal/model/evidence.go:56-62 | a recorded event is in the journal with its time and text, added or there before |
| `ProfileBlobHistory.BatchDeletes` | internal/model/profile_blobs.go:503-571 | a batch takes the next 500 candidates, or all that are left, and deletes exactly the unpinned of them |
| `ProfileBlobHistory.SweepBounds` | internal/model/profile_blobs.go:80-110 | a sweep begins and ends with no pins and no marks, and touches neither blobs nor rows nor cache in doing so |
| `ProfileBlobSweep.ScanOrderIsGood` | internal/model/profile_blobs.go:23-28 | the scan order has the property the proof needs: workers before the column its trigger copies into |
| `ProfileBlobLoss.InvNeverLoses` | internal/model/profile_blobs.go:472-571 | from a state with the invariant no run of allowed steps loses a blob |
| `ProfileBlobLoss.ExposedIsLost` | internal/model/profile_blobs.go:472-571 | a journal row behind the scan that refers to a blob the sweep will delete is lost by a run in which holders finish, reports overwrite events at the events' own times and the sweep goes on |
| `ProfileBlobLoss.DeadCacheIsLost` | internal/model/profile_blobs.go:211-226 | a cached id whose blob is gone, or is another's by now, ends up in a row |
| `ProfileBlobLoss.TouchLosesExactlyWhenUncovered` | internal/model/events.go:119-126 | the occurrences-only update can be followed by a lost blob if and only if its journal copy is new, the journal is scanned, and some copied id is not safe |
| `ProfileBlobLoss.LooseStoreLosesNothing` | internal/model/events.go:52-56 | finding, inserting or pinning a blob without the lock never leads to a loss |
| `ProfileBlobLoss.LooseCacheLosesExactlyWhenUncovered` | internal/model/events.go:52-56 | entering a blob into the cache without the lock can be followed by a loss if and only if the blob is gone or another's, or the sweep has emptied the cache and will still delete it |
| `ProfileBlobSweepRuns.StoreWithoutTheLockLosesABlob` | internal/model/events.go:52-76 | a careful run up to a cache entry, made without the lock, for a blob a batch has deleted; it can lose a blob |
| `ProfileBlobSweepRuns.UncoveredTouchLosesABlob` | internal/model/events.go:119-126 | a careful run in which the background pass strips a journal row and a sweep passes the journal, up to a journal copy that can lose a blob |
| `ProfileBlobSweepRuns.ScanningWorkersLateLosesABlob` | internal/model/evidence.go:51-53 | scanning workers after the verifications journal loses a blob the trigger copied |
| `EvidenceTables.NextIdLeast` | internal/model/evidence.go:246-268 | the next row id is the least bound above all ids in use |
| `EvidenceTables.KeyIdentifies` | internal/model/evidence_compaction.go:58-79 | two incidents have one key if and only if run, id, identity, attribution and capability all agree |
| `EvidenceCounts.ShareAllEffect` | internal/model/evidence_compaction.go:95-127 | normalising a record list adds to each count how often the record occurs in it, and the ids spell the list out |
| `EvidenceCounts.PutIncidentsEffect` | internal/model/evidence_compaction.go:58-79 | an incident list takes exactly the keys no earlier row has, each at its first mention |
| `EvidenceCounts.PlacedInv` | internal/model/evidence_compaction.go:34-134 | normalising a row keeps exact counts, faithful rows and sound owners |
| `EvidenceCounts.PruneKeepsInv` | internal/model/evidence_retention.go:149-187 | so does a prune batch: deleting unused records removes exactly the unreferenced ones |
| `EvidenceCounts.RunKeepsInv` | internal/model/evidence_compaction.go:34-134 | so does every run of records, normalised rows and prune batches |
| `EvidenceCounts.CountsAndExpansionsHold` | internal/model/evidence_compaction.go:87-253 | after any run, each use count is the number of occurrences in all remaining reference lists, counting repeats, no list dangles, and each row expands to the records it reported, in order |
| `EvidenceCounts.EachIncidentOnce` | internal/model/evidence_compaction.go:42-86 | after any run, a stored incident expands in exactly one row, with the body of its first mention in that row's report; without pruning every reported incident is stored under the smallest row that reported it |
| `EvidenceRuns.RowsAreTheReports` | internal/model/evidence.go:225-269 | in every run the rows are exactly the reports not pruned, under their own ids, with identity, attribution and payload as reported; a row is normalised if it was recorded so or normalised since, and stored as reported otherwise |
| `EvidenceRuns.EveryReportReadsBack` | internal/model/evidence_compaction.go:87-253 | in every run of clean reports each report not pruned reads back from its row: its records in order and its other fields |
| `EvidenceRuns.StoredIncidentsWereReported` | internal/model/evidence_compaction.go:42-86 | in every run of clean reports each stored incident has the run, id and body of its first mention in the report of the row that owns it, and expands in that row and no other |
| `EvidenceRuns.ReportedIncidentsAreStored` | internal/model/evidence_compaction.go:42-86 | without pruning each incident a normalised row reported is stored with exactly its run and id, for its identity, attribution and capability, with a body reported for it, under that row or an earlier one |
| `EvidenceRuns.DifferentIncidentsBothStored` | internal/model/evidence_compaction.go:58-79 | two incidents of one report that differ in run or id are both stored |
| `EvidenceCounts.PruneKeepsOwnersExactlyWhen` | internal/model/evidence_retention.go:170-178 | the smallest-owner rule survives a batch if and only if no remaining row reported an incident the batch owned |
| `EvidenceCounts.PrunedOwnerLosesAnIncident` | internal/model/evidence_retention.go:170-178 | two rows report one incident and the first is pruned: the second stays without it |
| `EvidenceCounts.ForgedReferenceBreaksCounts` | internal/model/evidence.go:225-269 | a report that names a record of its own breaks the counts of an empty table |
| `EvidenceCounts.RecordKeepsCountsExactlyWhen` | internal/model/evidence.go:225-269 | a report keeps the counts exact if and only if it forges no reference |
| `EvidenceCompactor.SettleShare` | internal/model/evidence_compaction.go:96-120 | inserting with no use and deferring one equals inserting with one use |
| `EvidenceCompactor.EvidenceDB.NormalizeIncident` | internal/model/evidence_compaction.go:58-78 | skipping by the owner cache changes nothing the upsert would have |
| `EvidenceCompactor.EvidenceDB.NormalizeRecord` | internal/model/evidence_compaction.go:96-120 | cached or not, the same id, and the same counts once deferred uses are added |
| `EvidenceCompactor.EvidenceDB.Normalize` | internal/model/evidence_compaction.go:34-134 | cached or not, the row and the settled tables of the uncached normaliser |
| `EvidenceCompactor.EvidenceDB.RecordRuntimeEvidence` | internal/model/evidence.go:225-269 | one transaction with the effect of the direct path, leaving a running compactor's caches sound |
| `EvidenceCompactor.EvidenceDB.FlushUses` | internal/model/evidence_compaction.go:403-408 | adding the deferred uses, in any order, settles the tables |
| `EvidenceCompactor.EvidenceDB.CompactBatch` | internal/model/evidence_compaction.go:383-415 | a batch ends in the tables of the uncached normaliser run over the same rows |
| `EvidenceCompactor.EvidenceDB.SelectBatch` | internal/model/evidence_compaction.go:349-372 | the next rows after the cursor, in order, up to the bound and the limit, none skipped |
| `EvidenceCompactor.EvidenceDB.LoadCaches` | internal/model/evidence_compaction.go:300-337 | the caches read at the start are sound |
| `EvidenceCompactor.EvidenceDB.CompactRuntimeEvidence` | internal/model/evidence_compaction.go:287-425 | with reports arriving between batches and a stop after any batch, the tables are those of a script of direct records and row normalisations and nothing else: the same reports in order and each row once, in id order, up to a bound fixed at the start; a complete pass took every row; with clean reports exact counts, faithful rows and sound owners are kept |
| `EvidenceCompactor.CompactionKeepsInv` | internal/model/evidence_compaction.go:383-415 | whatever such a script explains keeps exact counts, faithful rows, sound and smallest owners, and loses no row |
| `EvidencePruning.Release` | internal/model/evidence_retention.go:163-169 | each record loses exactly its occurrences in the row's list |
| `EvidencePruning.RuntimeTables.PruneArchived` | internal/model/evidence_retention.go:149-187 | a batch is pruned as specified, or, exactly when some row's references do not decode, nothing changes |
| `EvidencePruning.FirstEligible` | internal/model/evidence_retention.go:120-148 | the sixteen smallest eligible ids in order, all of them if there are fewer |
| `EvidencePruning.RuntimeTables.PruneEligible` | internal/model/evidence_retention.go:108-191 | succeeds if and only if every eligible row decodes, and then no eligible row is left; the rows gone are eligible and come before all that stay; a failure comes after whole batches, with a row that does not decode in the next one; the other rows and their incidents are untouched, counts stay exact, and the records left are exactly those a remaining row refers to |
| `EvidencePruning.WithoutThen` | internal/model/evidence_retention.go:108-191 | two prunes leave what one prune of the rows of both would: the same rows, incidents and records |
| `EvidencePruning.ExpandRecordRefs` | internal/model/evidence_compaction.go:216-253 | through a sound cache the same records as from the table, in order, errors included |
| `EvidencePruning.CacheSurvives` | internal/model/evidence.go:288-359 | a read cache stays sound under every transaction but a prune, and under a prune if and only if some remaining row still refers to each cached record |
| `CostCounters.AdvanceCounter` | internal/model/cost_meter.go:123-134 | a continued counter keeps the larger value and bills the difference; a restarted or new one bills all of it |
| `CostCounters.AdvanceCounterMap` | internal/model/cost_meter.go:136-161 | the loop advances every reported label and keeps the others unless the counters restarted |
| `CostCounters.CostMeterDelta` | internal/model/cost_meter.go:163-198 | one report against the kept state, with the separate lifetimes of worker and Litestream counters |
| `CostCounters.SegmentsPartition` | internal/model/cost_meter.go:112-121 | the segments are, in order, the maximal runs of one epoch |
| `CostCounters.Telescopes` | internal/model/cost_meter.go:123-134 | the deltas of a watched counter sum to the peaks of its segments |
| `CostCounters.BilledIsSumOfPeaks` | internal/model/cost_meter.go:112-198 | for every stream, named epochs or not, and every counter, the deltas sum to the peaks of its runs: cut where the worker restarts, where a named epoch changes, and where a value falls with no epoch named on one side |
| `CostCounters.NamedBillIsSumOfPeaks` | internal/model/cost_meter.go:112-198 | where epochs are named, the deltas sum to the peaks of the maximal same-epoch segments, a missing label counting as 0 |
| `CostCounters.BillMeetsNamedTotalExactlyWhen` | internal/model/cost_meter.go:123-134 | for every stream the bill is never below the peaks of the stretches between named epochs, and meets them if and only if no value above 0 follows, in its stretch, a fall with no epoch named on one side |
| `CostCounters.RunsPartition` | internal/model/cost_meter.go:112-134 | for every stream of readings the runs and the stretches join up to the counted values in order, none is empty, a stretch begins exactly where a value opens one, and a run there and exactly where a value falls with no epoch named on one side |
| `CostCounters.OpensExactlyWhenFirst` | internal/model/cost_meter.go:163-183 | a value opens a stretch if and only if the worker restarted or another epoch was named there or since the last value that counts, or there is none |
| `CostCounters.OrderInSegmentIrrelevant` | internal/model/cost_meter.go:112-198 | streams whose runs differ only in the order inside them are billed the same |
| `CostCounters.OrderInNamedSegmentIrrelevant` | internal/model/cost_meter.go:112-198 | where epochs are named, reordering reports inside a segment never changes the total |
| `CostCounters.BlankEpochsDependOnOrder` | internal/model/cost_meter.go:176-183 | without an epoch two reports in the other order bill differently |
| `CostOrder.StepIsStepView` | internal/model/cost_meter.go:163-198 | what one series is billed depends only on the two epochs and its own kept level |
| `CostOrder.PassAll` | internal/model/cost_meter.go:112-198 | a stretch of reports of one lifetime bills by its first and its highest value alone, against what was kept before |
| `CostOrder.ReorderedReportsBillAlikeExactlyWhen` | internal/model/cost_meter.go:112-198 | reports of one named lifetime are billed the same in every order, whatever comes after, if and only if no level was kept without a Litestream epoch before them or their values all fall below it or none does |
| `CostOrder.NamedReportsBillAlike` | internal/model/cost_meter.go:112-198 | so where the epochs before are named, any order of the reports of one lifetime is billed the same, for every series and whatever comes after |
| `CostOrder.UnnamedLevelMakesOrderMatter` | internal/model/cost_meter.go:123-134 | 5 without an epoch, then 3 and 7 of one epoch, bill 12; with the 7 first they bill 7 |
| `CostMeter.AddCounterMap` | internal/model/cost_meter.go:91-102 | the loop adds every nonzero label |
| `CostMeter.PlusAdds` | internal/model/cost_meter.go:77-89 | adding totals adds each series |
| `CostMeter.SkippedWriteLosesNothing` | internal/model/cost_meter.go:255-273 | the write that is skipped would not have changed the bucket, because the largest size is never below the last |
| `CostMeter.MeterDB.AddToBucket` | internal/model/cost_meter.go:241-274 | the conditional write ends in the buckets of the unconditional one; only the source column may lag |
| `CostMeter.MeterDB.RecordCostMeter` | internal/model/cost_meter.go:200-279 | the whole transaction refines the simple form; a report older than the last changes nothing |
| `CostMeter.StateOfRun` | internal/model/cost_meter.go:208-236 | in every run the state kept for a worker is that of its in-order reports |
| `CostMeter.BucketHoldsItsHour` | internal/model/cost_meter.go:238-274 | in every run a bucket holds exactly what the calls within the 3600 seconds from its start returned, and the peak disk, last and largest size reported in order in that time; starts are whole hours |
| `CostMeter.TruncatesToItsHour` | internal/model/cost_meter.go:242 | a time is truncated to a start if and only if the start is a multiple of 3600 seconds and the time lies within the 3600 seconds from it |
| `CostMeter.DBSizeFallsBack` | internal/model/cost_meter.go:281-286 | the size counted is the one reported, or the total where none is, or nothing |
| `CostMeter.BucketsConserveDeltas` | internal/model/cost_meter.go:200-279 | in every run a worker's buckets sum to what its in-order reports were billed |
| `CostMeter.HourlySumIsSumOfPeaks` | internal/model/cost_meter.go:112-279 | so they sum, for each series, to the peaks of the runs, and where epochs are named to the peaks of the same-epoch segments |
| `Deployments.Newest` | internal/model/deployments.go:134-140 | newest by start time, then id |
| `Deployments.LatestMeans` | internal/orchestrator/manager.go:696-714 | the latest row is ready, of the source, and started last, the greater id among equals; without a source all compete |
| `Deployments.DeploymentDB.UpsertReady` | internal/model/deployments.go:133-177 | the newest row of the version, or a new one, becomes ready and pending at the next generation; nothing else changes |
| `Deployments.DeploymentDB.ListRolloutPending` | internal/model/deployments.go:192-207 | exactly the ready pending rows, each once, by id, with their generations |
| `Deployments.DeploymentDB.ClearRolloutPending` | internal/model/deployments.go:214-217 | only the row and generation named are cleared |
| `Deployments.DeploymentDB.LatestReadyMatches` | internal/orchestrator/manager.go:696-714 | true if and only if the latest ready row of the source has the target's image and SHAs, or there is none |
| `Rollout.StepKeepsInv` | internal/orchestrator/deploy.go:176-261 | every step of records, builds, rollouts, errors, crashes and restarts keeps the invariant |
| `RolloutHistory.NoRecordedRolloutIsLost` | internal/orchestrator/deploy.go:176-261 | in every run, read from its steps: a ready row that was recorded is resumed by any restart that comes next, or a task for exactly its last record found it current twice and rolled it out without failure, or found it superseded; one that was never recorded is not resumed |
| `RolloutHistory.RestartResumes` | internal/orchestrator/deploy.go:246-261 | a restart starts a task for every ready pending row, with its id, generation, source, SHAs and image, and no other task; rows and running tasks stay |
| `RolloutHistory.RestartTakesTheList` | internal/orchestrator/deploy.go:246-261 | its tasks are one for each entry of the list of pending rollouts |
| `RolloutHistory.ResumedExactlyWhenPending` | internal/orchestrator/deploy.go:246-261 | any restart that comes next rolls a row out if and only if the row is ready and pending |
| `RolloutHistory.GenerationCountsRecords` | internal/model/deployments.go:133-177 | in every run the generation of a row is the number of its records |
| `RolloutHistory.TracesHappened` | internal/orchestrator/deploy.go:176-219 | in every run what counts as rolled out was checked, rolled, checked again and settled by one task without failure, in this order, and what counts as superseded was found so by a check |
| `RolloutHistory.RecordWrites` | internal/model/deployments.go:133-177 | a record makes its row ready and pending, with this version and image and one more generation, and changes no other |
| `RolloutHistory.BuildWrites` | internal/orchestrator/deploy.go:79-96 | a build makes its row ready with its image or failed without one, and changes nothing else |
| `RolloutHistory.ClearEndsTheRollout` | internal/orchestrator/deploy.go:232-240 | a task that clears its row ends its rollout for every later restart, unless the row was recorded again |
| `RolloutHistory.CrashesLeaveTheRows` | internal/orchestrator/deploy.go:176-219 | a crash ends every task and an error its own; neither changes a row |
| `Rollout.StepKeepsCarefulInv` | internal/orchestrator/deploy.go:176-219 | with careful updates by builds, every latest ready row stays secure: unrecorded, rolled out as it stands, or pending with no running task that could clear it otherwise |
| `RolloutHistory.LatestRecordIsRolledOut` | internal/orchestrator/deploy.go:176-261 | with careful builds the latest ready row of each source, once recorded, is resumed by any restart that comes next, or its own image and SHAs were rolled out without failure by one task |
| `Rollout.UnrecordedBuildIsCareful` | internal/orchestrator/deploy.go:79-96 | a build's update of a row nobody has recorded is careful |
| `Rollout.SameResultIsCareful` | internal/orchestrator/deploy.go:91-96 | so is a result that leaves a ready row as it was |
| `Rollout.FinishLosesExactlyWhenCareless` | internal/orchestrator/deploy.go:79-96 | a build's update can be followed by a latest recorded row that is neither resumed nor rolled out if and only if it was not careful |
| `RolloutRuns.CrashBeforeTheRecordIsNotResumed` | internal/orchestrator/deploy.go:91-96 | a crash between marking a build ready and recording it leaves a latest ready row nobody rolls out |
| `RolloutRuns.FailedBuildRevivesASupersededRow` | internal/orchestrator/deploy.go:79-89 | a build that fails after its row was recorded revives a superseded row that was never rolled out |
| `FailureStreaks.SortOldestFirst` | internal/orchestrator/envfailure.go:187-191 | a sorted permutation, strict when times are distinct |
| `FailureStreaks.EnvironmentalVerificationIDs` | internal/orchestrator/envfailure.go:186-214 | the loop computes the unescalated transient failures of the sorted rows |
| `FailureStreaks.EnvironmentalStreakEscalated` | internal/orchestrator/envfailure.go:141-157 | the backward loop counts the transient failures before the first pass or other failure |
| `FailureStreaks.VerificationsBefore` | internal/orchestrator/builders_deployment.go:476-487 | exactly the rows that started earlier, newest first |
| `FailureStreaks.RecentIsStreak` | internal/orchestrator/envfailure.go:141-214 | counting newest first gives the streak of the oldest-first walk |
| `FailureStreaks.EnvironmentalAt` | internal/orchestrator/envfailure.go:192-213 | a row is environmental if and only if it is transient and its own streak is within the threshold |
| `FailureStreaks.StreakSinceTheBreak` | internal/orchestrator/envfailure.go:192-213 | a streak is the number of transient failures after the last row that passed or failed otherwise |
| `FailureStreaks.WalksAgree` | internal/orchestrator/envfailure.go:141-214 | for every history with distinct times and every transient failure in it, the backward walk escalates if and only if the forward walk leaves the failure out |
| `FailureStreaks.InconclusiveRowsChangeNothing` | internal/orchestrator/envfailure.go:196-198 | histories with the same conclusive rows get the same answers from both walks |
| `FailureStreaks.OlderRowsShrink` | internal/orchestrator/envfailure.go:186-214 | older rows only shrink the environmental set of a page |
| `Corroboration.WalkConsecutiveActionable` | internal/orchestrator/lifecycle.go:1515-1534 | the method, through the sorting walk, computes the verdict of the order the checks were sorted into, which is the specified one when start times are distinct |
| `Corroboration.WalkCorroborates` | internal/orchestrator/lifecycle.go:1515-1534 | the walk corroborates if and only if some newest rows, all since the deployment, hold as many failures as wanted, no pass and no environmental failure; inconclusive checks do not count |
| `Corroboration.WalkRefuses` | internal/orchestrator/lifecycle.go:1515-1534 | it refuses for good if and only if a row from before the deployment, a pass or an environmental failure comes after too few failures |
| `Corroboration.CorroboratedStays` | internal/orchestrator/lifecycle.go:1486-1534 | a corroborated verdict stands on every longer page |
| `Corroboration.WorkerCorroborated` | internal/orchestrator/lifecycle.go:1489-1506 | the limits tried are five times the failures wanted and ten, then four times as many each, at most 1000, and every try before the last was a full page that left the streak open; whatever way ties are sorted, a positive answer comes with a last page whose sorted walk corroborates and a negative one with a last page that decided, ran out of rows or reached 1000; where start times are distinct, the positive answer holds on the whole history |
| `Corroboration.SingleWorkerFailureCorroborated` | internal/orchestrator/lifecycle.go:1486-1509 | a positive answer names the worker it rests on, with the page and the sorted order that corroborate it, and where start times are distinct its whole history does; every worker before it, or all of them on a negative answer, ended as WorkerCorroborated does without corroboration |
| `Corroboration.PauseEvidenceHistory` | internal/orchestrator/lifecycle.go:1367-1389 | the page returned is the first, each four times the one before, that is not a full page of inconclusive checks since the deployment below 1000 rows; inconclusive rows never hide the newest conclusive check since the deployment that is among the first thousand rows |
| `Corroboration.OlderChecksCorroborateExactlyWhen` | internal/orchestrator/lifecycle.go:1511-1534 | checks from before the deployment can turn a verdict around if and only if the walk corroborates once every failure whose streak no row of the page ends is counted |
| `Corroboration.DecidedVerdictTurnedAround` | internal/orchestrator/lifecycle.go:1511-1534 | a decided negative verdict that two older checks turn around |
| `Corroboration.SettledRefusalStays` | internal/orchestrator/lifecycle.go:1511-1534 | a negative verdict that rests on settled failures is final |
| `DeploymentObserver.RunKeepsInv` | internal/orchestrator/deployment_observer.go:45-110 | in every run there is one runner at most, it owns the channel it will close, and something pending has a runner |
| `DeploymentObserver.NoRequestIsLost` | internal/orchestrator/deployment_observer.go:45-110 | in every run not cancelled each request, at whatever step it came, is pending with a runner that can take it or is about to return, or is in a refresh taken at a later step, or was served by one that returned without error |
| `DeploymentObserver.OneRunnerClosesOnce` | internal/orchestrator/deployment_observer.go:55-72 | never two runners, and each that ended closed its own channel exactly once |
| `DeploymentObserver.QuietMeansServed` | internal/orchestrator/deployment_observer.go:63-72 | once no runner is left, every request was served by a refresh taken at a later step |
| `DeploymentObserver.RunnersGoOn` | internal/orchestrator/deployment_observer.go:63-110 | a runner takes what is pending, stops if and only if nothing is or the observer is cancelled, and returns from a refresh either way |
| `ComparisonCache.EvictExpired` | internal/orchestrator/comparison_cache.go:142-151 | the loop drops exactly the values too old and the entries left with neither value nor build |
| `ComparisonCache.AskStep` | internal/orchestrator/comparison_cache.go:50-96 | a reply is never too old, a caller that waits waits for the build in progress on its key, and a build starts only when there is none |
| `ComparisonCache.CommitStructure` | internal/orchestrator/comparison_cache.go:119-133 | a finishing build leaves the entries sound |
| `ComparisonCache.OneBuildPerKey` | internal/orchestrator/comparison_cache.go:77-82 | in every interleaving at most one build per key, and the map keeps its entry |
| `ComparisonCache.NoAnswerTooOld` | internal/orchestrator/comparison_cache.go:142-151 | in every interleaving no cached answer is six hours old |
| `ComparisonCache.WaitersReceiveTheBuild` | internal/orchestrator/comparison_cache.go:90-137 | every waiter of a build receives exactly the outcome it committed |
| `ComparisonHistory.CommitKeeps` | internal/orchestrator/comparison_cache.go:119-133 | a build of a second or more leaves its value with its time, a failed one what was kept before, any other nothing; other keys keep theirs |
| `ComparisonHistory.AskAnswers` | internal/orchestrator/comparison_cache.go:59-88 | a caller gets the kept value or snapshot younger than six hours at once and otherwise waits for a build of its key; a build starts if and only if nothing on hand is younger than ten minutes and the key has none |
| `ComparisonHistory.BuildsCanEnd` | internal/orchestrator/comparison_cache.go:119-137 | a build in progress can end in any way, hand over what it ended with, and each waiting caller then receives exactly that |
| `ComparisonHistory.TimePasses` | internal/orchestrator/comparison_cache.go:90-96 | time passes and a caller leaves without touching anything else |
| `ComparisonHistory.AnswersComeFromBuilds` | internal/orchestrator/comparison_cache.go:50-137 | in every run a cached answer is a value some build of that key ended with, or that was loaded for it as a snapshot, exactly as long ago as the answer says |
| `ComparisonHistory.WaitersReceiveTheirBuild` | internal/orchestrator/comparison_cache.go:90-137 | in every run what a caller has received is what the build it waited for, of its key, was committed with |
| `EvidenceHold.StepKeepsInv` | internal/orchestrator/manager.go:45-110 | every step of every thread keeps lock ownership, current loads and unheld destruction |
| `EvidenceHold.LockIsPerWorker` | internal/orchestrator/manager.go:45-110 | a thread can take the lock if and only if no other is past it for the same worker |
| `EvidenceHold.HeldWorkersAreNotCut` | internal/orchestrator/manager.go:518-549 | in every interleaving no destructive step is enabled against a held worker |
| `EvidenceHold.HoldKeepsEvidence` | internal/orchestrator/evidence_hold.go:76-163 | from the step that holds a worker to one that releases it the worker keeps its machine, volume and replica prefix, and no destructive step against it is enabled |
| `EvidenceHold.HoldsChangeByPlan` | internal/orchestrator/evidence_hold.go:76-153 | a hold sets its worker's flag, a release clears it, and no other step touches any flag |
| `EvidenceHold.DecisionByPlan` | internal/orchestrator/manager.go:518-526 | a destroy, replacement or resume goes on if and only if its worker is not held, and a release that destroys looks again first |
| `EvidenceHold.ResourcesChange` | internal/orchestrator/manager.go:528-549 | a cut takes one resource from its own worker, and provisioning gives that worker all of them |
| `EvidenceHold.LosesExactlyWhenUnheld` | internal/orchestrator/manager.go:518-549 | without a release some run takes a resource from a worker if and only if the worker is not held |
| `Churn.ChurnDB.Apply` | internal/churn/churn.go:34-93 | all statements with their affected rows, or, on any failure or an unknown operation, nothing |
| `Churn.ChurnDB.Validate` | internal/churn/churn.go:95-116 | accepts exactly the sound tables of a known mode |
| `Churn.UnsoundTables` | internal/churn/churn.go:95-116 | a key out of range, a negative expiry or count, an empty value, a claimed or done job never attempted, a receipt without a done job or the reverse: each makes the tables unsound |
| `Churn.KeyOf` | internal/churn/engine.go:62-68 | every generated key is below the configured slots, and a hot one in the first tenth of them |
| `Churn.OperationAt` | internal/churn/engine.go:57-69 | every generated operation is a known one of its mode |
| `Churn.NamesComeRound` | internal/churn/engine.go:57-69 | the nine queue or three cache operations come round in turn, and each round has one key |
| `Churn.FirstHashes` | internal/churn/engine.go:63 | the hash of the first two groups without a seed |
| `Churn.OperationMovesItsJob` | internal/churn/churn.go:43-66 | a queue operation takes its own job one move along its life, counts an attempt exactly when it claims, gives a receipt exactly when it completes, and touches no other job |
| `Churn.CacheHoldsTheLastWrite` | internal/churn/churn.go:67-76 | in every order of committed and rolled-back operations the cache has a row for a key if and only if an upsert of it was neither overwritten nor evicted at its expiry since, and the row is that upsert's |
| `Churn.EveryRunIsSound` | internal/churn/churn.go:34-116 | for every accepted configuration and every order of committed and rolled-back operations, keys stay in range, receipts are exactly the done jobs, and claimed and done jobs were attempted |
| `Churn.GroupLeavesNothing` | internal/churn/engine.go:58 | the nine operations of a group take a job through both of its lives and leave the tables as they were |
| `Churn.WholeGroupsLeaveNothing` | internal/churn/engine.go:57-69 | in order and without failures, whole groups leave the queue empty |
| `ChurnEngine.PauseStopsTheEngine` | internal/churn/engine.go:111-162 | from a Pause to its return without error, and on, without a Resume since it began, no Apply runs when it returns and none starts until a Resume, for any workers and schedule |
| `ChurnEngine.PauseReturnsExactlyWhenIdle` | internal/churn/engine.go:137-162 | in every run a pausing caller can return if and only if no worker is active |
| `ChurnEngine.CancelStopsTheEngine` | internal/churn/engine.go:111-135 | once the engine is cancelled no Apply starts |
| `ChurnEngine.PauseHoldsExactlyWhilePaused` | internal/churn/engine.go:137-162 | no Apply runs when a Pause returns, and one can start before the next Resume if and only if the engine is no longer paused |
| `ChurnEngine.ResumeDuringPauseIsMissed` | internal/churn/engine.go:137-162 | a Resume while a Pause polls goes unseen and the Pause still returns |

## Left out

- JSON text: field order, white space, escaping and payloads that are not objects (those pass through unchanged).
- SQL text, database errors other than a rolled-back transaction, and the 64-bit range of counters and row ids.
- Rows written by provisioning code carry no references and are one kind of plain write in the collector's model.
- The collector's safety theorem covers the stores of `RecordUniqueEventAt` only while the guard on their cache entry
  holds, which the code does not see to; the guard is exact.
- The cursor of the background snapshot pass; only what the pass does to one row is modelled.
- Reports recorded between the read of a compaction batch and its transaction appear before the read; they add rows
  above the bound only, so the read is the same.
- The decode caches of `attachRuntimeProfileEvidence`, and the order of incidents inside an expanded row.
- Compaction and pruning do not overlap, because one retention pass runs them in turn.
- The reads of the cost meter (`CostMeter`, `CostMeterWindowEnd`) and its pruning: sums over the buckets.
- The repository binding of a deployment source: a record it refuses changes nothing.
- A restart's rollouts run one after the other; in the model their tasks all wait and may interleave, and one that the
  shutdown keeps from starting is dropped.
- The source lock of a rollout is not needed by the proofs, so rollouts of one source may overlap in the model; the
  clock that stamps start times does not run backwards.
- Failure classification by message: a verification carries its kind.
- EvidencePruning.RuntimeTables.PruneEligible: takes the eligible rows as given and keeps them for one call; which
  deployments are archived and old enough is a query over other tables.
- `escalatedEnvironmentalStatIDs`, which classifies by message only.
- Volume garbage collection and recovery of pending workers under an evidence hold: only the hold, release, destroy,
  replace and resume paths are modelled.
- Each critical section of the comparison cache happens at one instant, and its snapshot store is an input.
- Protocols between threads are modelled on values, one step per critical section, rather than as objects that
  share a heap.
- Machine and provider calls, metrics, HTTP handlers, alerts and messages.
- Event feed coalescing, scorecards, metering windows, experiment schedules and auth middleware.

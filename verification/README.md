# Verified model of the streaming connectors

This project models, in Dafny 4.11, the bookkeeping that makes the connectors deliver
at least once across checkpoints, restarts and failures, and the transformations that must
preserve meaning, and proves properties of that model. `dafny verify dfyconfig.toml` checks
everything.

The host contract is the same for every source: the host calls `generate_batch` repeatedly and
delivers a returned batch before it asks for the next one; a marker may come while a batch is still
queued; epochs are marked in increasing order; a finalizer may come late or never; a crash may come
between any two steps and loses everything but the state backend.

How the parts are modelled:

- Objects that the source updates in place are classes (`AckLedger`, `SharedAck`, `CdcSource`,
  `DedupedEventIds`, `Poller`, `CloudTrailSource`, `Unit`, `TableReader`, `IcebergSource`, `PrefixScan`,
  `S2Source`, `StreamlingStore`). Their methods keep the source's loops and are proved against
  functions on values.
- Whole runs are state machines over those values (`AckProtocol`, `CloudTrailSources`,
  `IcebergSources`, `S2Sources`, `StreamlingStores`). Besides the code's own state a system carries a
  log (rows returned, records ever queued, rows of the table's history, records of a stream) that is
  kept apart from the code's counters; the theorems compare the two.
- File readers and the state backend are environment methods whose bodies are one possible behaviour;
  callers use their contracts only. A flag `reliable` says whether they may fail. Answers of catalogs and
  decryption services are parameters, those of the SQS queue a script, so that it can be said exactly when
  a call must succeed.
- Clocks, poll intervals and the order in which other tasks run are parameters or step choices.

| file | models |
|---|---|
| `AckLedger.dfy`, `AckProtocol.dfy`, `CdcSource.dfy` | Postgres CDC acknowledgement: ledger, shared ack, fan-out, batches, epochs |
| `Changelog.dfy` | Postgres CDC row alignment and the meaning of the emitted changelog |
| `CloudTrailPoller.dfy`, `CloudTrailSource.dfy` | CloudTrail windows, dedup, watermarks and restarts |
| `IcebergSnapshots.dfy`, `IcebergReader.dfy`, `IcebergSource.dfy` | Iceberg ancestry, resumable reading, checkpoints |
| `S2Source.dfy`, `S2Readers.dfy` | S2 per-stream positions, stream discovery, checkpoints |
| `ArrowTypes.dfy`, `DecimalText.dfy`, `SchemaConversion.dfy` | Iceberg sink type checker, converter, decimal text and auto-created tables |
| `EtlStore.dfy`, `StreamlingStore.dfy` | the etl store: persisted form, operations, crashes, schema pruning |
| `Packing.dfy`, `SqsSink.dfy`, `PublicDecrypt.dfy` | greedy packing, SQS sending with retries, decryption requests |
| `Calendar.dfy` | day numbers and timestamps as calendar dates |
| `Wrappers.dfy`, `Collections.dfy`, `Integers.dfy` | option and result types, sequences and iteration over sets, truncating division and 32-bit wrap-around |

Findings, each a member that states the exact condition:

- S2: the finalizer and the position update ask only whether a stream has a reader, so what an earlier
  reader of a pruned and re-created stream has left acts on the new one. In every reachable state,
  starting a stream is safe for all its data and all continuations exactly when no position left over
  (in an unfinalized snapshot, pending, or given by a record still waiting in channel or carry) lies past
  the start (`RecreationExact`). All three leftovers are reachable and lose records
  (`StaleSnapshotLosesRecords`, `StalePendingLosesRecords`, `StaleRecordLosesRecords`). The no-loss
  theorems hold under exactly this guard (`Harmless`). The comment at src/sources/s2/reader.rs:283-286
  claims more.
- S2: when the removal of a pruned stream's checkpoint fails, the re-created stream starts from the old
  position; over all continuations that skips none of its records exactly when it has none between the
  configured start and that position (`KeptCheckpointExact`, `KeptCheckpointSkipsRecords`), and is safe
  for all its data exactly when the position does not lie past the configured start
  (`KeptCheckpointIsSafe`).
- S2: after a crash an undelivered record is read again exactly when the stream has a checkpoint or the
  configured start is not past the record, so a source that starts at the tail and crashes before its
  first checkpoint passes over what was written meanwhile (`RestartReReadsUndelivered`).
- CDC: a keyed sink stays in step with the table on an event exactly when the sink can follow it
  (`CanFollow` in `EventKeepsSync`): an update carries every output column and keeps its key or retracts
  the full old row first, a delete has an old image that carries every key column, and no truncation hits
  rows. This covers every event a table with a primary key can produce, whatever its replica identity. An
  unchanged out-of-line value is nulled in the sink although the key is kept (`UnchangedToastIsNulled`);
  a delete without an image, or with a replica identity that lacks the key, leaves its row
  (`DeleteWithoutImageStays`, `DeleteByOtherIdentityStays`).
- Iceberg source: a position inside a unit is accepted when its snapshot merely exists. It can be caught
  up from exactly when that snapshot is on the current ancestry and the position lies inside its unit
  (`ValidationIsExact`). From any other accepted position the calls give out at most the rest of the
  unit and then fail for ever (`StuckNeverCatchesUp`, `OrphanIsAccepted`, `ReadOrphan`).
- Iceberg sink: `Date64` to `Date32` is on the allowlist of conversions said to preserve every value. It
  keeps the date exactly when that is a whole day whose number fits 32 bits: a time of day is cut off
  toward zero, and a day past the range becomes another day (`DaysOf`, `FarDateWraps`).
- Iceberg sink: an auto-created table accepts its own input exactly when the input holds no time of day
  that needs rescaling (`AutoCreateExact`, `TimeOfDayIsRefused`).
- Iceberg sink: the digit rule of the allowlist keeps an integer exactly when the scale is not negative or
  the digits it drops are zeros, so for every integer type it is lossless exactly for scales that are not
  negative; Iceberg types have no others (`DigitsKept`, `NegativeScaleLosesDigits`).
- MySQL sink: a timestamp shows the right date exactly when its day number fits 32 bits
  (`FormatTimestamp`).
- Etl store: a schema is read back unchanged exactly when all its column types are known
  (`SchemaRoundTrip`).

## Model

| member | source | states |
|---|---|---|
| `AckLedgers.FinalizeSplitsAtMarker` | src/postgres_cdc/ledger.rs:51-67 | what a finalized epoch releases is exactly the pending units armed at or before its marker, the rest stays in order |
| `AckLedgers.AckLedger.FinalizeEpoch` | src/postgres_cdc/ledger.rs:51-67 | the popping loop releases the covered prefix, drops the epoch and older markers, and does nothing for an unknown epoch |
| `AckLedgers.SharedAckFiresOnce` | src/postgres_cdc/ledger.rs:101-131 | over any sequence of releases, with repeats and strangers, the ack fires when the last pending slice is released and never again; with no subscriber it fires at once |
| `AckProtocol.AckExactlyWhenDurable` | src/postgres_cdc/bridge.rs:291-305 | in every state of every interleaving: a write is acknowledged at most once, only when every slice's rows were returned before a finalized marker, and it is acknowledged once they all are and no finalizer is mid-way |
| `AckProtocol.RowsReturnedOnce` | src/postgres_cdc/source.rs:216-313 | no row is returned to the host twice, whatever builds fail |
| `AckProtocol.ReturnedInSendOrder` | src/postgres_cdc/source.rs:245-285 | in every run a source returns rows in the order in which they were sent to it: always a subsequence of what was sent, and until a build fails exactly the rows no longer buffered |
| `AckProtocol.StepKeeps` | src/postgres_cdc/source.rs:216-330 | every atomic step (fan-out, send, receive, build, return, failure, marker, finalizer, release) keeps the protocol invariant |
| `CdcSources.CdcSource.Generate` | src/postgres_cdc/source.rs:216-313 | the call's draining, carry, failed-build and arming paths compute the protocol's batch, of which `BatchIsFront` and `ReturnedInSendOrder` speak |
| `CdcSources.CdcSource.ReceiveAll` | src/postgres_cdc/source.rs:245-285 | the receive loop drains units until the batch is full or the channel is empty |
| `CdcSources.BatchIsFront` | src/postgres_cdc/source.rs:216-313 | a batch is the oldest buffered rows in order, as many as fit or as there are, and the rest stays in order; it fails if and only if there are rows and they do not build, and then rows are dropped off the front |
| `CdcSources.CdcSource.ProcessFinalizer` | src/postgres_cdc/source.rs:321-331 | exactly the units the ledger gives up are released, each on its own shared ack |
| `CdcSources.GenerateIsProtocolRun` | src/postgres_cdc/source.rs:216-313 | one call is a run of enabled protocol steps that changes only its own source and log |
| `Changelog.Aligned` | src/postgres_cdc/bridge.rs:86-108 | the single sorted merge over columns and missing indices equals looking every output column up by name |
| `Changelog.AlignedOld` | src/postgres_cdc/bridge.rs:110-124 | a full old image is aligned by columns and a key image by identity columns, by name |
| `Changelog.AlignedKey` | src/postgres_cdc/bridge.rs:110-124 | a key image is placed under the output columns of its identity columns' names, the others become null |
| `Changelog.ConvertEvents` | src/postgres_cdc/bridge.rs:126-225 | the rows pushed event by event are the concatenated rows of the events, other tables and truncates giving none |
| `Changelog.AlignedIsProject` | src/postgres_cdc/bridge.rs:86-108 | aligning a full row depends on its content by column name only, not on column order |
| `Changelog.StreamKinds` | src/postgres_cdc/bridge.rs:126-225 | for every stream the number of rows of each kind: one insert row per insert, one update row per update with a delete row before it exactly when the old row is retracted, one delete row per delete with an image, no copy rows, other tables none |
| `Changelog.CopyKinds` | src/postgres_cdc/bridge.rs:228-244 | the copy gives copy rows only, one per row of the table |
| `Changelog.ChangelogCountsTheTable` | src/postgres_cdc/bridge.rs:126-225 | with before-rows and full images, for every truncate-free history the signed count of every row value emitted equals the change of its count in the table |
| `Changelog.CopyCountsTheTable` | src/postgres_cdc/bridge.rs:228-244 | the initial copy emits every row of the table exactly as often as it occurs |
| `Changelog.ChangelogIsTheTable` | src/postgres_cdc/bridge.rs:126-244 | copy then stream: the signed rows emitted are the table's contents |
| `Changelog.EventKeepsSync` | src/postgres_cdc/bridge.rs:126-225 | for every event of a table with a primary key, with any replica identity, unchanged-TOAST updates, image-less deletes and truncates included, the event keeps a keyed sink equal to the table if and only if an update carries every output column and keeps its key or retracts the full old row, a delete has an old image that carries every key column, and a truncate finds no row |
| `Changelog.KeyedSinkEqualsTable` | src/postgres_cdc/source.rs:26-30 | a keyed upsert/delete sink that starts in step ends equal to the table over every history of such events |
| `Changelog.CopyBringsSync` | src/postgres_cdc/bridge.rs:228-244 | the initial copy brings an empty keyed sink in step with the table |
| `Changelog.KeyedSinkFollowsCopy` | src/postgres_cdc/bridge.rs:126-244 | copy then stream: a keyed sink that starts empty ends equal to the table |
| `Changelog.UnchangedToastIsNulled` | src/postgres_cdc/bridge.rs:164-175 | an update that keeps its key but lacks an unchanged column leaves the sink unequal to the table |
| `Changelog.DeleteWithoutImageStays` | src/postgres_cdc/bridge.rs:185-192 | a delete without an old image leaves its row in the sink |
| `Changelog.DeleteByOtherIdentityStays` | src/postgres_cdc/bridge.rs:113-121 | a delete by a replica identity that lacks the key leaves its row in the sink |
| `Changelog.ReplayIsIdempotent` | src/postgres_cdc/source.rs:26-30 | replaying any suffix of the applied rows leaves a keyed sink unchanged |
| `CloudTrailPoller.CappedOutgrowsLookback` | src/sources/cloudtrail/config.rs:135-140 | a configuration that passes the check caps a window only when its milliseconds did not saturate, so it is longer than the lookback |
| `CloudTrailPoller.CappedWindowsAdvanceWithoutGap` | src/sources/cloudtrail/poller.rs:85-116 | after a capped window the next one starts no later than its end and at least `max_window - lookback` after its start |
| `CloudTrailPoller.BacklogEnds` | src/sources/cloudtrail/poller.rs:85-116 | for a fixed now, k capped cycles move the start forward by k times `max_window - lookback` and never past now, so they are bounded |
| `CloudTrailPoller.WindowCovers` | src/sources/cloudtrail/poller.rs:85-105 | a time up to now lies in the window if and only if it is not before the floor nor more than the lookback behind the watermark, and within the window length of its start |
| `CloudTrailPoller.FetchWindow` | src/sources/cloudtrail/poller.rs:241-333 | the page and event loops compute the scan of all pages, or the first failure; `ScanSucceeds`, `ScanPagesSound` and `ScanSkipsMalformed` say which it is and what it holds |
| `CloudTrailPoller.ScanSucceeds` | src/sources/cloudtrail/poller.rs:241-333 | a window succeeds if and only if every page request did and malformed events are to be skipped or none was returned |
| `CloudTrailPoller.ScanSkipsMalformed` | src/sources/cloudtrail/poller.rs:301-324 | a successful window remembers exactly the malformed events that have an id, at their time or the window start, and none under the failing policy |
| `CloudTrailPoller.ScanPagesSound` | src/sources/cloudtrail/poller.rs:241-333 | what a scan fetches has distinct ids, none already seen, each returned by the API, and misses no good record |
| `CloudTrailPoller.SortIntoBatches` | src/sources/cloudtrail/poller.rs:149-163 | the batches concatenate to the records sorted by time, each within the batch size |
| `CloudTrailPoller.SortIsAscending` | src/sources/cloudtrail/poller.rs:149-163 | the order the batches follow is ascending in time |
| `CloudTrailPoller.SortKeepsIds` | src/sources/cloudtrail/poller.rs:149-163 | sorting neither loses nor repeats an id |
| `CloudTrailPoller.Poller.RunCycle` | src/sources/cloudtrail/poller.rs:193-238 | one cycle of the loop: eviction, window, fetch, watermark and memory; a failed window remembers nothing new |
| `CloudTrailPoller.CycleAdvances` | src/sources/cloudtrail/poller.rs:193-238 | a cycle succeeds exactly when its scan does; the watermark then is the newest of itself, the end of a capped window and the fetched records, and stays otherwise |
| `CloudTrailPoller.CycleForgets` | src/sources/cloudtrail/poller.rs:193-238 | memory is bounded by the window: an id is kept only if its time is not before the window start or the cycle returned it |
| `CloudTrailSources.CloudTrailSource.GenerateBatch` | src/sources/cloudtrail/source.rs:266-307 | the call settles the delivered batch, fills the carry and takes a batch; a conversion error leaves the records |
| `CloudTrailSources.CloudTrailSource.FillCarry` | src/sources/cloudtrail/source.rs:59-71 | the carry is topped up in channel order until a batch can be filled |
| `CloudTrailSources.GenerateTakes` | src/sources/cloudtrail/source.rs:266-307 | a batch is the front of what is buffered, as much as fits or as there is, and the rest stays in order; it fails if and only if there are records and they do not convert |
| `CloudTrailSources.RestartReachesEverythingOwed` | src/sources/cloudtrail/source.rs:266-341 | in every run with crashes, a restart from the persisted watermark plans its first window no later than any record ever queued that was not delivered when a persisted marker was taken |
| `CloudTrailSources.OwedComesBack` | src/sources/cloudtrail/poller.rs:193-238 | from any state of any run, also right after a restart, an owed record is queued, or still lies ahead of a window start that every successful poll has moved forward by at least `max_window - lookback`; so it is queued after finitely many |
| `CloudTrailSources.NoIdQueuedTwice` | src/sources/cloudtrail/poller.rs:193-333 | no event id is queued twice between restarts despite eviction, overlaps and failed windows |
| `CloudTrailSources.NothingReturnedIsLost` | src/sources/cloudtrail/poller.rs:193-238 | whatever a successful window returned is queued, even if failed windows returned it before |
| `CloudTrailSources.PersistedNeverRegresses` | src/sources/cloudtrail/source.rs:309-341 | the persisted watermark never moves backwards, crashes included |
| `CloudTrailSources.DeliveredIsNewest` | src/sources/cloudtrail/source.rs:266-307 | in every run the delivered watermark is the starting one or the time of a delivered record, and not behind any delivered record |
| `CloudTrailSources.CheckpointIsPersisted` | src/sources/cloudtrail/source.rs:309-341 | checkpoints take effect: after the finalizer of a marked epoch, with no crash or later finalizer between, the backend holds the watermark delivered at the marker |
| `CloudTrailSources.StartsNeverRegress` | src/sources/cloudtrail/poller.rs:193-226 | in every run, between two restarts the planned window starts never move backwards, whatever succeeds or fails |
| `CloudTrailSources.StepKeeps` | src/sources/cloudtrail/poller.rs:193-238 | poll, send, batch, marker, finalizer and crash steps keep the invariant that ties watermark, dedup, FIFO order and lookback together |
| `IcebergSnapshots.SnapshotsSince` | src/sources/iceberg/snapshots.rs:25-60 | the walking loop computes the reversed parent chain or the error of the first missing or foreign ancestor |
| `IcebergSnapshots.SinceIsAncestry` | src/sources/iceberg/snapshots.rs:25-60 | the walk returns a chain if and only if it is the ancestry from `last` (excluded) to the current snapshot |
| `IcebergSnapshots.SinceSuffix` | src/sources/iceberg/snapshots.rs:25-60 | after a snapshot of the ancestry is processed, exactly the rest is left |
| `IcebergSnapshots.SinceExtends` | src/sources/iceberg/snapshots.rs:25-60 | a refresh that only extends the ancestry appends exactly the new snapshots to what was left |
| `IcebergReader.SortedOrderIsUnique` | src/sources/iceberg/reader.rs:449-494 | files with distinct paths have one sorted order, whatever order the catalog lists |
| `IcebergReader.Unit.NextFromFile` | src/sources/iceberg/reader.rs:259-298 | opening and skipping over any chunking of the stream yields exactly the rows after the position, or reports a file that shrank |
| `IcebergReader.Unit.ReadUpTo` | src/sources/iceberg/reader.rs:223-255 | the slices followed by what the unit still holds are what it held before; at most `max` rows, fewer only at its end |
| `IcebergReader.TableReader.OpenUnit` | src/sources/iceberg/reader.rs:449-494 | a unit is opened on the unit's files in path order at the position, or refused when the snapshot or files are gone |
| `IcebergReader.TableReader.OpenNextUnit` | src/sources/iceberg/reader.rs:407-443 | the cursor's own unit or the first append after it; skipped snapshots move the cursor without changing what is owed, under the failing policy it passes only appends and replaces, and every error has its cause in the snapshots, the position or an unreliable environment |
| `IcebergReader.TableReader.NextBatch` | src/sources/iceberg/reader.rs:366-393 | on the ancestry a batch is non-empty, within the batch size and exactly the next owed rows, caught up means nothing is owed, and an error changes nothing that is owed; off it a call gives at most the rest of the unit and never reports caught up; under the failing policy the cursor passes only appends and replaces, and a non-append error names the next snapshot, an overwrite or delete; the loop terminates |
| `IcebergReader.CaughtUpPassedAll` | src/sources/iceberg/snapshots.rs:104-127 | once caught up under the failing policy, no snapshot that was ahead was an overwrite or a delete |
| `IcebergReader.ReliableFailure` | src/sources/iceberg/reader.rs:366-443 | where catalog and files are reliable, a call from the ancestry fails only for a snapshot the failing policy does not pass |
| `IcebergSources.OwedExtends` | src/sources/iceberg/reader.rs:345-351 | a refresh adds the new appends at the end of what every kept cursor is owed |
| `IcebergSources.RunsEmitThePrefix` | src/sources/iceberg/reader.rs:366-443 | under any failures, re-opens with other batch sizes and refreshes, the batches are a prefix of the scan then each append in order, and all of it once caught up |
| `IcebergSources.ResumeIsExact` | src/sources/iceberg/reader.rs:204-298 | two readers resumed from one cursor emit the same rows in the same order |
| `IcebergSources.InitialIsOnAncestry` | src/sources/iceberg/source.rs:236-242 | a start position is always resumable; earliest owes exactly the current scan, latest nothing yet |
| `IcebergSources.ValidationIsExact` | src/sources/iceberg/source.rs:245-253 | a position on the ancestry is never refused; from an accepted one some sequence of calls catches up if and only if it is completed, or its snapshot is on the current ancestry and it lies inside its unit |
| `IcebergSources.OrphanIsAccepted` | src/sources/iceberg/source.rs:245-253 | an incomplete position on a snapshot beside the ancestry passes the check; no sequence of calls from it catches up, and all of them together give at most the two rows of its unit |
| `IcebergSources.StuckNeverCatchesUp` | src/sources/iceberg/reader.rs:366-443 | from a position off the ancestry or outside its unit, over any calls, re-opens and refreshes that do not rejoin it, no call catches up, the rows are a prefix of the rest of its unit, and after that every call fails |
| `IcebergSources.ReadOrphan` | src/sources/iceberg/reader.rs:366-443 | a running reader on such an orphan, called any number of times, in a reliable environment or not, gives at most its two rows and never reports caught up |
| `IcebergSources.OrphanNeverIdles` | src/sources/iceberg/source.rs:337-394 | from a cursor off the ancestry no call of `generate_batch` comes back empty until a refresh rejoins it |
| `IcebergSources.IcebergSource.GenerateBatch` | src/sources/iceberg/source.rs:337-394 | the call is a run of the source's steps that ends in a batch, an error or idle; it refreshes at the start exactly when due and again after catching up when that is due, with what the catalog answers, and every failure has its cause |
| `IcebergSources.PersistedCoversOnlyDelivered` | src/sources/iceberg/source.rs:337-425 | in every run the persisted position stands after rows that were all delivered when its marker came, at most one batch behind what was delivered, and level with it if the source was caught up |
| `IcebergSources.PersistedNeverMovesBack` | src/sources/iceberg/source.rs:404-425 | persisted positions never move backwards along any run, restarts included |
| `IcebergSources.CheckpointIsPersisted` | src/sources/iceberg/source.rs:396-425 | checkpoints take effect: after the finalizer of a marked epoch, with no restart or later finalizer between and its write succeeding, the backend holds the position delivered at the marker |
| `IcebergSources.RestartEmitsTheRest` | src/sources/iceberg/source.rs:277-327 | after a restart the source returns the table's rows from the persisted position on, in order |
| `S2Sources.BatchPositions` | src/sources/s2/source.rs:228-236 | the reverse scan finds one past the last sequence number of every stream in the batch |
| `S2Sources.ChainSplit` | src/sources/s2/reader.rs:310-382 | cutting a stream's buffered records leaves both parts complete and gives the position between them |
| `S2Sources.StepKeeps` | src/sources/s2/source.rs:198-292 | every step keeps the invariant: behind a position all is delivered, between position and reader exactly the buffered records |
| `S2Sources.PersistedMeansDelivered` | src/sources/s2/source.rs:252-292 | a persisted position means every record of the stream from its first start up to it was delivered when its marker was taken, over any number of restarts and harmless re-creations |
| `S2Sources.NothingIsSkipped` | src/sources/s2/reader.rs:310-382 | every record a reader has passed is delivered or still buffered behind what an earlier reader left |
| `S2Sources.RestartReReadsUndelivered` | src/sources/s2/reader.rs:235-281 | after a crash anywhere the reader restarts no later than an undelivered record if and only if the stream has a checkpoint or the configured start is not past the record |
| `S2Sources.PositionsNeverRegress` | src/sources/s2/reader.rs:287-294 | positions and persisted positions only move forward until the stream is pruned |
| `S2Sources.CheckpointIsPersisted` | src/sources/s2/source.rs:252-292 | checkpoints take effect: after the finalizer of a marked epoch, with no crash or later finalizer between, every stream still read whose write succeeds has the position it had at the marker |
| `S2Sources.RecreationExact` | src/sources/s2/reader.rs:283-294 | in every reachable state, starting a stream is safe for all data and all continuations if and only if no position left by an earlier reader (snapshot, pending, waiting record) lies past the start |
| `S2Sources.KeptCheckpointExact` | src/sources/s2/reader.rs:220-228 | with the old checkpoint kept, no continuation skips a record of the re-created stream if and only if it has none between the configured start and the checkpoint |
| `S2Sources.KeptCheckpointIsSafe` | src/sources/s2/reader.rs:220-228 | the kept checkpoint is harmless for all data and all continuations if and only if it does not lie past the configured start |
| `S2Sources.StaleSnapshotLosesRecords` | src/sources/s2/source.rs:276-285 | a reachable state in which an unfinalized snapshot makes starting the stream unsafe |
| `S2Sources.StalePendingLosesRecords` | src/sources/s2/reader.rs:287-294 | a reachable state in which a pending position does |
| `S2Sources.StaleRecordLosesRecords` | src/sources/s2/reader.rs:287-294 | a reachable state in which a record waiting in the channel does |
| `S2Sources.KeptCheckpointSkipsRecords` | src/sources/s2/reader.rs:220-228 | a reachable state in which a kept checkpoint makes the re-created stream skip its record 0 |
| `S2Readers.PrefixScan.RefreshPage` | src/sources/s2/reader.rs:141-190 | a failed page leaves the scan where it was; the names come only with the last page |
| `S2Readers.ScanMissesNothing` | src/sources/s2/reader.rs:40-72 | a stream listed throughout a scan is in its result, though listings change between pages |
| `S2Readers.ScanInventsNothing` | src/sources/s2/reader.rs:40-72 | the result holds only streams some page listed as live |
| `S2Readers.S2Source.EnsureStream` | src/sources/s2/reader.rs:235-281 | a reader starts from the checkpoint, else from the configured end, and only if none runs |
| `S2Readers.S2Source.RecordDelivered` | src/sources/s2/reader.rs:287-294 | positions move to the maximum, for streams with a reader only |
| `S2Readers.S2Source.GenerateBatch` | src/sources/s2/source.rs:198-250 | the call returns the oldest waiting records in order, as many as fit or as there are, and keeps the rest; it fails exactly when there are records and they do not convert, and then none is lost; it is a run of count, receive, forward and take steps |
| `S2Readers.CallIsRun` | src/sources/s2/source.rs:198-250 | the steps of a call on the source's fields are a run of the whole system whose batch in flight is the batch the call returned, so the theorems about runs speak of the call |
| `ArrowTypes.GatherKeepsValues` | src/sinks/iceberg/schema.rs:454-457 | unpacking a dictionary of any nested type keeps type, length and every row's value |
| `ArrowTypes.NullArrayIsNull` | src/sinks/iceberg/schema.rs:458-473 | a null column of any nested type is well formed and null in every row |
| `SchemaConversion.CheckConversion` | src/sinks/iceberg/schema.rs:271-335 | the recursive loops push no problem if and only if the types are convertible, and never drop earlier ones |
| `SchemaConversion.CheckStruct` | src/sinks/iceberg/schema.rs:279-304 | both struct loops together: all input fields known and convertible, all required table fields supplied |
| `SchemaConversion.DigitsSuffice` | src/sinks/iceberg/schema.rs:338-348 | the digit table covers every value of every integer type |
| `SchemaConversion.AllowlistExact` | src/sinks/iceberg/schema.rs:338-405 | both directions: a leaf conversion to a table type is on the allowlist if and only if the table type holds every value, by integer ranges, decimal digits, float width, timestamp units and text or byte kinds |
| `SchemaConversion.LosslessNeverFails` | src/sinks/iceberg/schema.rs:379-405 | integers, decimals, floats, text, bytes and dates on the allowlist are never refused by the strict cast |
| `DecimalTexts.DecimalTextDenotes` | src/sinks/iceberg/schema.rs:106-106 | read back as a decimal number, the text of a 256-bit decimal of any sign and scale is the number stored |
| `SchemaConversion.DaysOf` | src/sinks/iceberg/schema.rs:400-400 | the day number of a date stands for the same date if and only if that is a whole day fitting 32 bits; in range it is the date cut off toward zero |
| `SchemaConversion.FarDateWraps` | src/sinks/iceberg/schema.rs:400-400 | the exception is real: a whole day past the range is on the allowlist and becomes a day in the distant past |
| `SchemaConversion.LosslessKeepsMeaning` | src/sinks/iceberg/schema.rs:367-405 | a leaf conversion on the allowlist keeps number (also as text), text, bytes, day and instant, up to sub-microsecond digits, times of day in dates, and days outside 32 bits |
| `SchemaConversion.ConvertIsFaithful` | src/sinks/iceberg/schema.rs:443-530 | soundness for any nesting: what the checker accepts either fails or gives the target type with the same rows and nulls and, by field-name path, the same values up to the leaf exceptions, absent fields null |
| `SchemaConversion.ConvertExact` | src/sinks/iceberg/schema.rs:443-530 | completeness for any nesting: an accepted conversion succeeds if and only if the input fits, that is no instant outside 64 bits, no 32-bit list over too many items, and no null where the table requires a value |
| `SchemaConversion.NegativeScaleLosesDigits` | src/sinks/iceberg/schema.rs:388-390 | an admitted conversion of an integer type to a decimal keeps all its values if and only if the scale is not negative |
| `SchemaConversion.DigitsKept` | src/sinks/iceberg/schema.rs:388-390 | an admitted integer is never refused, and kept if and only if the scale is not negative or the digits it drops are zeros |
| `SchemaConversion.TryNew` | src/sinks/iceberg/schema.rs:159-213 | a projector is built if and only if every written column is known and every table column is fed by a convertible column or optional |
| `SchemaConversion.ProjectIsFaithful` | src/sinks/iceberg/schema.rs:215-245 | for a projector built from the declared schema and any batch, also one whose fields carry marks the declaration lacks: the table's columns, the batch's rows, and in each column the values of the batch column of its name or nulls |
| `SchemaConversion.ProjectExact` | src/sinks/iceberg/schema.rs:215-245 | a projector projects a batch of declared columns if and only if the batch has every fed column, without nested marks, and its values fit the table |
| `SchemaConversion.AutoCreateExact` | src/sinks/iceberg/schema.rs:80-136 | the table derived for a nested input type accepts it if and only if no time of day in it needs rescaling |
| `SchemaConversion.TimeOfDayIsRefused` | src/sinks/iceberg/schema.rs:112-112 | the exception is real |
| `EtlStore.ToPersisted` | src/postgres_cdc/store.rs:191-298 | the loops list every storable chain, schema, destination and checkpoint, in any map order, and nothing else |
| `EtlStore.FromPersisted` | src/postgres_cdc/store.rs:300-393 | the insertion loops compute the loaded cache |
| `EtlStore.DestinationRoundTrip` | src/postgres_cdc/store.rs:341-378 | every destination state, also an interrupted change, is rebuilt exactly, so loading never fails |
| `EtlStore.SchemaRoundTrip` | src/postgres_cdc/store.rs:311-339 | a schema is restored unchanged if and only if its column types are known |
| `EtlStore.LoadRestores` | src/postgres_cdc/store.rs:191-393 | any persisted form of a cache loads as that cache with unstorable states removed and the last storable one current |
| `EtlStore.SurvivorsAreStable` | src/postgres_cdc/store.rs:191-393 | what survives is represented by the same persisted value, and surviving again changes nothing |
| `StreamlingStores.FindNewest` | src/postgres_cdc/store.rs:512-525 | the newest version at or before a snapshot, or none if there is none |
| `StreamlingStores.PruneTable` | src/postgres_cdc/store.rs:566-581 | exactly the versions are dropped that have a newer one at or before the boundary |
| `StreamlingStores.PruneSchemas` | src/postgres_cdc/store.rs:557-584 | the returned count is the number of versions removed over all tables |
| `StreamlingStores.PruneKeepsLookups` | src/postgres_cdc/store.rs:557-584 | for every snapshot at or after the boundary the newest version is the same before and after pruning |
| `StreamlingStores.PruneLeavesOthers` | src/postgres_cdc/store.rs:563-576 | tables without a boundary or without a qualifying version are untouched |
| `StreamlingStores.PruneTouchesSchemas` | src/postgres_cdc/store.rs:557-584 | pruning changes nothing but schema versions |
| `StreamlingStores.RollbackUndoesUpdate` | src/postgres_cdc/store.rs:412-446 | a rollback after an update restores state and history |
| `StreamlingStores.UpdateAppends` | src/postgres_cdc/store.rs:412-428 | an update appends exactly its states, in order, to each table's timeline of past and current states, for new tables too, and touches nothing else |
| `StreamlingStores.UpdateSetsLast` | src/postgres_cdc/store.rs:412-428 | the current state of every table named is the last one given, all others are as before |
| `StreamlingStores.RollbackPopsOne` | src/postgres_cdc/store.rs:430-446 | a rollback succeeds exactly when there is a history, and then takes one state off the timeline and touches no other table |
| `StreamlingStores.RollbackUndoesReset` | src/postgres_cdc/store.rs:601-616 | a rollback after a reset for resync brings a table's state and history back |
| `StreamlingStores.ResetStartsOver` | src/postgres_cdc/store.rs:601-616 | a reset puts every known table, and no other, into the initial state with its state remembered, forgets the apply worker's checkpoint and nothing else |
| `StreamlingStores.StoresWhatWasGiven` | src/postgres_cdc/store.rs:484-555 | a destination or schema version stored is the one given, beside all the others |
| `StreamlingStores.DeleteLeavesNoTrace` | src/postgres_cdc/store.rs:617-627 | after a delete no entry of the table is left in any persisted form |
| `StreamlingStores.TableIsDropped` | src/postgres_cdc/store.rs:592-627 | preparing a copy drops the table's schemas, destination and sync checkpoint and keeps its states; deleting drops states and history too; other tables keep everything |
| `StreamlingStores.CheckpointsOnlyAdvance` | src/postgres_cdc/store.rs:456-482 | no operation moves a checkpoint back except those that delete it |
| `StreamlingStores.CheckpointIsRaised` | src/postgres_cdc/store.rs:456-482 | a checkpoint becomes the greater of old and given, or is removed; the others stay |
| `StreamlingStores.RunOp` | src/postgres_cdc/store.rs:412-631 | the body of every operation computes the specified cache or error and reports the number it stands for: versions removed, tables reset or deleted, or the checkpoint now stored |
| `StreamlingStores.StreamlingStore.Mutate` | src/postgres_cdc/store.rs:156-166 | it succeeds if and only if the operation and the write do; a failure changes neither cache nor backend, a success leaves a persisted form of the new cache |
| `StreamlingStores.StreamlingStore.Hydrate` | src/postgres_cdc/store.rs:171-180 | it succeeds if and only if the backend can be read and loads; the cache becomes what the backend holds, or stays |
| `StreamlingStores.StreamlingStore.GetTableSchema` | src/postgres_cdc/store.rs:512-525 | the answer is the newest version at or before the snapshot, which is unique, and none only if there is none |
| `StreamlingStores.CrashRecoversTheCache` | src/postgres_cdc/store.rs:156-180 | over any run with failing writes and crashes the backend holds a persisted form of the hydrated cache, a crash and hydrate give its storable part, and a second one changes nothing |
| `StreamlingStores.StorableIs` | src/postgres_cdc/store.rs:191-215 | exactly the states that are not merely in memory are stored |
| `StreamlingStores.StorableStateSurvives` | src/postgres_cdc/store.rs:191-393 | a current state other than those two is current again after a restart, with all schemas, destinations and checkpoints |
| `Packing.GreedyIsMinimal` | src/sinks/sqs/sink.rs:411-461 | for any hereditary notion of fitting, no order-preserving split has fewer chunks than a greedy one |
| `SqsSink.PackArrayBodies` | src/sinks/sqs/sink.rs:416-459 | all rows in order, every body within the limit and too full for the next row; it fails exactly when a row plus brackets is too large |
| `SqsSink.PackingIsMinimal` | src/sinks/sqs/sink.rs:411-459 | as few bodies as any order-preserving packing within the limit |
| `SqsSink.EnsureBodiesFit` | src/sinks/sqs/sink.rs:465-477 | true exactly when every body is within the limit |
| `SqsSink.NextChunkLen` | src/sinks/sqs/sink.rs:486-499 | within count and bytes, at least one, and maximal |
| `SqsSink.FailuresPartition` | src/sinks/sqs/sink.rs:365-383 | the entries retried and the entries accepted are together exactly the request, by content and by size |
| `SqsSink.SendChunkWithRetry` | src/sinks/sqs/sink.rs:303-408 | it succeeds if and only if at most `MAX_RETRIES` answers leave some entries over for a retry and the next accepts the rest; then every entry was accepted exactly once |
| `SqsSink.FivePartialAnswers` | src/sinks/sqs/sink.rs:303-408 | a chunk survives five answers that leave entries over and not a sixth |
| `SqsSink.SendMessages` | src/sinks/sqs/sink.rs:280-301 | every request respects the limits, the loop ends, and on success each body was accepted exactly once and the count is exact; it fails for size exactly when a body is too large, sending nothing, and succeeds when all fit and the service accepts everything |
| `PublicDecrypt.ChunkByBits` | src/transforms/zama_public_decrypt.rs:219-234 | the chunks concatenate to the handles, stay within 2048 bits and are greedy |
| `PublicDecrypt.ChunksAreMinimal` | src/transforms/zama_public_decrypt.rs:219-234 | no order-preserving split within the budget has fewer requests |
| `PublicDecrypt.BitWidths` | src/transforms/zama_public_decrypt.rs:205-216 | the costs: integer types double from 8 to 128 bits, booleans cost 2, addresses 160, everything else 256, so each handle fits a request of its own |
| `PublicDecrypt.RefusalsAreFinal` | src/transforms/zama_public_decrypt.rs:172-180 | an error counts as a refusal exactly when asking again could not clear it: invalid input, or one of two codes not marked retryable |
| `PublicDecrypt.DecryptChunk` | src/transforms/zama_public_decrypt.rs:254-284 | after a refusal the one-by-one fallback gives each handle the answer of asking it alone; it fails if and only if the request, or one of the single ones that follow a refusal, meets a fault |
| `PublicDecrypt.DecryptAll` | src/transforms/zama_public_decrypt.rs:237-250 | a success answers every handle as asking it alone would; without a fault of the client it succeeds, and a failure carries the client's error and is never a refusal |
| `Calendar.DateFromDaysIsRight` | src/sinks/mysql/sink.rs:707-723 | every day number, negative too, becomes a valid Gregorian date whose day number it is |
| `Calendar.DateOfDayNumber` | src/sinks/mysql/sink.rs:707-723 | every valid date is the date of its day number |
| `Calendar.DaysFollow` | src/sinks/mysql/sink.rs:707-723 | the next day number gives the next date, and day 0 is 1970-01-01 |
| `Calendar.FormatTimestamp` | src/sinks/mysql/sink.rs:682-694 | seconds before 1970 floor to the right time of day, and the date is right exactly when the day number fits 32 bits |

## Left out

- Options, environment variables, credentials, TLS, metrics, logging, labels and plugin registration: thin plumbing.
- Network and SDK behaviour of AWS, S2, the Iceberg catalog, Parquet, sqlx, the etl pipeline and the Zama daemon: environment calls with the contracts named in the files.
- Cancelled futures and graceful shutdown: calls complete or return an error, and sources are running.
- Overflow of row and unit counters of 64 bits in the ledger: they are natural numbers.
- `AckProtocol.AckExactlyWhenDurable`: says "handed back by a finalizer still at work" where the code's finalizer holds the released units between two lock acquisitions.
- CloudTrail: a crash before the first persisted checkpoint starts at the configured start time again, so nothing is owed across it; sleeps and backoff are step choices.
- `CloudTrailSources.NoIdQueuedTwice`: assumes what the API promises (`ApiContract`): events with one time per id inside the window asked for.
- `CloudTrailSources.OwedComesBack`: rests on the other half of `ApiContract`, that a complete scan returns again every event ever queued whose time lies in its window; how many polls succeed is the environment's choice.
- `Changelog.EventKeepsSync`: every row carries the columns of the primary key (they are not dropped or renamed while streaming) and keys are unique after each event.
- `IcebergSources.ValidationIsExact`: that catching up is possible means that the reader's contract allows it; a catalog that keeps failing, or a non-append snapshot under the failing policy, can still prevent it.
- Iceberg: parent links are assumed well founded, files and appends never change, and a refresh keeps every snapshot a live position still needs; a restart without a persisted position begins a new history.
- `S2Sources.PersistedMeansDelivered`: covers runs in which a stream is re-created only when that is harmless, which `S2Sources.RecreationExact` shows to be the exact condition; a reader never receives sequence numbers below the one it asked for, although the request clamps to the tail.
- `S2Sources.KeptCheckpointExact`: speaks of continuations in which the stream is not pruned once more. Writes of one finalizer may each fail, and no pruning happens between its steps.
- `SchemaConversion.ConvertExact`: the nullability checks of Arrow's list, struct, map and batch constructors are modelled, their other checks are not.
- `SchemaConversion.ConvertIsFaithful`: the cast kernel is modelled on the pairs of types the allowlist admits; floats are opaque values, zones are fixed offsets, failures for lack of offset width in text and bytes are not modelled.
- `SchemaConversion.AutoCreateExact`: the table type is what the doc comment at src/sinks/iceberg/schema.rs:74-79 says of the iceberg-rust round trip, with any field ids and element names.
- `SchemaConversion.ProjectExact`: speaks of batches without decimal_arb columns whose column types are the declared ones up to marks.
- `SchemaConversion.ProjectIsFaithful`: decimal_arb columns are rendered by a parameter and nothing is said of their values, nor of a batch column whose type differs from the declared one in more than marks.
- Etl store: `with_schema_change` is assumed to accept any change of an applied schema; snapshot ids are ordered by commit then message position.
- `SqsSink.SendMessages`: assumes that a response reports each failed entry once; a request that fails as a whole leaves open what was accepted.
- Zama private decryption, delegation cache and permits are not part of this model; clear values are already text.
- MySQL decimal text and sub-second digits, printing of digits in dates: not modelled; sub-second instants before 1970 are outside the calendar theorems.
- Row alignment of strict JSON decoding in the S2 source: it depends on the incremental decoder.
- Group registration, shutdown races and publication SQL of the CDC pipeline: table labels and source ids are assumed distinct.
- Arrow builders, JSON rendering, Parquet writing, S3 keys, ERC-7984 log decoding: case tables and library calls.

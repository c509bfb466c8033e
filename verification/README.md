# Colca in Dafny

A model of the parts of Colca whose correctness is a matter of reasoning about runs: the historian that
copies the metrics stream into a table, command redelivery, the log gate, paged log reading, the signal
index, the cursor watchdog, the request limiter and the command ledger. `dafny verify dfyconfig.toml`
checks everything.

## What is modelled

**The metrics table** (`MetricTable`, `Replay`, `Partition`, `Sink`). A row is a value or a retraction of
one signal at one time. The three SQL statements are functions on a map from (signal, microsecond) to a
cell; a row the schema refuses changes nothing. `Fold` applies rows one by one. The sink is a class whose
methods are the batch form, the row-by-row fallback and the partitioned form, each proved equal to the
fold. A transaction is one atomic change of the table and the markers, and its answer may be lost.

**The historian** (`StreamLog`, `Markers`, `Historian`, `Coverage*`, `NoLoss`, `ExactlyOnce`, `Exactly`,
`PagedOnce`, `Recreated`).
The write path is a state machine over the node (its logs by store, its cursor), the database (table, page
marker, partition markers) and one bridge at a time: the pipeline's fetcher, dispatcher, writers and marker
goroutine, or the pass that applies one page at a time and reads the next one meanwhile. A step is one
effect on the node or the database or one hand-over between goroutines. The bridge may crash between any two steps, an answer may be lost after a
commit, records may be appended and the store recreated at any point. A label sequence is a run, and the
results hold for every run from the empty database.

**Redelivery** (`Redelivery`). Live delivery, held-back commands and batched replay to one machine, with
subscriptions, deadlines, standalone periods and crashes between any two steps.

**The log gate** (`LogGate`, `Sums`). A class with the source's tables, its deadline heap as a set from which
a smallest entry is taken, and ghost counters for the verdicts given and the counts written.

**The rest.** `FetchLogs`: paged reading of a nearly sorted stream. `SignalIndex`: the flags of signals, fed
by a snapshot and a stream that a cursor follows. `Watchdog`: the resumable scan for the oldest unread
record. `Limiter`: token buckets and concurrency bounds, with tokens as reals. `Ledger`: the ids of commands.

## What the proofs found

- The pipelined table is not the sequential one at the page marker while rows ahead of the marker are
  written. `Exactly.TableIsMarkerPlusAhead` says what it is at every moment: the sequential table with the rows
  ahead applied. What is committed is the stream up to the marker if and only if no row is ahead
  (`Exactly.PipelinedTableIsSequential`), with nothing in flight if and only if the marker has passed every row
  that was written before the bridge started (`Exactly.DrainedTableIsSequential`).
  `Recreated.RestartIsAheadOfTheMarker` is a run where it has not.
- A marker read that fails after a write whose answer was lost makes the writer write the batch again:
  `Recreated.FailedLookWritesTwice` is such a run, and `Exactly.ExactlyOnceExactly` shows that nothing else
  does, and that this always breaks exactly-once.
- A store recreated before the first page mark can lose rows. With the bridge running or not, it does on some
  continuation if and only if a partition marker is set or the pipeline has a row of the old store left to write
  (`Recreated.RecreatedStoreIsLossless`). `Recreated.UnmarkedRecreationLosesARow` and
  `Recreated.RecreationUnderABridgeLosesARow` are runs of the two cases.
- Applying a page twice can change the table when a value arrives behind a retraction of its signal
  (`Replay.LateValueBreaksReplay`); `Replay.RepeatsExactly` has the exact condition.
- With the standalone journal unreadable, a live delivery may pass an owed command
  (`Redelivery.AnUnreadableJournalRun`), exactly when the check it leaves out would have failed
  (`Redelivery.UnreadableJournalSkips`). Then a crash may also repeat any number of commands
  (`Redelivery.UncheckedDeliveriesRepeatWithoutBound`), but never more than a batch and one for each live
  publish over an owed command (`Redelivery.CrashRepeatsABatchAndStrays`).
- A window that ends within the skew of the largest timestamp can complete too early
  (`FetchLogs.SaturationLosesARecord`). A window that starts within the skew of the smallest one cannot:
  `FetchLogs.FollowingIsExact` needs no condition on the start.
- Retention that advances while a page is read can hide the page's gap. `FetchLogs.GapIsToldExactly` has the exact
  condition on the low-water mark (LWM) at the three reads of a first page, and
  `FetchLogs.ResumedGapIsToldExactly` that of a resumed one: retention has not passed the resume point.
- When the newest definition of a signal is no longer what its topic holds, the flag depends on the order
  the records arrived in, unless no topic holds a definition of the signal (`SignalIndex.OrderFreeExactly`).

## Model

| member | source | states |
|---|---|---|
| MetricTable.ApplyRowLocal | internal/historian/sink.go:24-88 | A row's statement changes only its own signal's series, and its effect depends on nothing else in the table |
| MetricTable.FoldInView | internal/historian/sink.go:70-88 | What a page leaves of one signal depends only on that signal's rows, in their order |
| MetricTable.InterleavingIrrelevant | internal/historian/sink.go:411-446 | Two orders of rows that agree signal by signal leave the same table, so partitions commute |
| MetricTable.FoldLanded | internal/historian/sink.go:556-608 | Refused rows change nothing: the fold over all rows is the fold over those the schema accepts |
| MetricTable.FoldConcat | internal/historian/pipeline.go:688-694 | Applying two runs of rows one after the other is applying their concatenation |
| Replay.ReplayIdempotent | internal/historian/sink.go:401-408 | Applying a page a second time changes nothing, for every table, if no value of it lands behind a retraction of its signal |
| Replay.RepeatsExactly | internal/historian/pipeline.go:159-166 | A page may be applied again, with whatever rows left out and on whatever table, if and only if no value of it follows a retraction of its signal with an earlier timestamp |
| Replay.ForwardOrValuesReplay | internal/historian/pipeline.go:159-166 | The page is safe to repeat if every signal's timestamps do not go backwards, or it holds only values |
| Replay.LateValueBreaksReplay | internal/historian/sink.go:65-88 | A value that lands behind a retraction in the page makes the second application differ, for a whole family of rows |
| Replay.SignalSettled | internal/historian/sink.go:65-88 | The condition on a page holds of each signal's rows by themselves |
| Partition.PartitionOf | internal/historian/sink.go:449-456 | The partition of a signal is below the writer count and depends on the signal id alone |
| Partition.HashPartition | internal/historian/sink.go:449-456 | The byte-by-byte 32-bit hash loop computes the partition |
| Partition.SplitRows | internal/historian/pipeline.go:613-631 | The dispatch loop gives writer i exactly its partition's rows above its own marker, in order |
| Partition.ShareOfSignal | internal/historian/sink.go:411-431 | A signal's rows are all in the share of its partition, in order, and in no other |
| StreamLog.RowsOf | internal/historian/bridge.go:351-387 | Decoding a page yields exactly its decodable records above the applied offset, with their offsets, in order |
| Markers.StartMarkers | internal/historian/pipeline.go:77-103 | The resume point is the page marker or the largest floor of a complete foreign marker set, and the own markers are those of today's writer count |
| Markers.GroupMarkers | internal/historian/pipeline.go:79-90 | Markers are grouped by their writer count, own ones apart |
| Markers.Smallest | internal/historian/pipeline.go:96-99 | The floor of a group is its smallest offset |
| Markers.GroupComplete | internal/historian/pipeline.go:93-95 | A group as large as its writer count holds a marker of every partition |
| Markers.ResumeUnique | internal/historian/pipeline.go:91-103 | The resume point does not depend on the order the markers are read in |
| SinkModel.ValueColumns | internal/historian/sink.go:510-551 | The columns of a run keep the last row per (signal, microsecond), in order, and no other |
| SinkModel.InsertManyIsFold | internal/historian/sink.go:510-551 | One multi-row statement over the kept rows leaves what the rows leave one by one |
| SinkModel.BatchMeansFold | internal/historian/sink.go:463-500 | The statements of a page, runs of values together and retractions in place, mean the rows one by one |
| SinkModel.BuildBatch | internal/historian/sink.go:463-490 | The batch-building loop produces exactly the page's plan |
| SinkModel.PlanWellFormed | internal/historian/sink.go:463-490 | No multi-row statement names a slot twice, which the database would refuse |
| SinkModel.PoisonNeedsRefusal | internal/historian/sink.go:252-259 | A batch is poison only if the schema refuses a row it sends |
| SinkModel.Sink.ApplyBatch | internal/historian/sink.go:463-506 | A committed batch leaves the fold of its rows and moves the marker; a poisoned one changes nothing; a failed one changed nothing, or everything with its answer lost |
| SinkModel.Sink.ApplyRowByRow | internal/historian/sink.go:556-608 | The fallback commits the fold over exactly the accepted rows, reports exactly the refused ones, and moves the marker; a failure left nothing or all of it |
| SinkModel.Sink.ApplyOne | internal/historian/sink.go:390-399 | One transaction or its fallback leaves the fold of the rows and the marker and reports the refused rows, or fails with nothing or everything written; strict poison writes nothing |
| SinkModel.Sink.ApplyPartitioned | internal/historian/sink.go:411-446 | Shares in any order leave the fold of the page and report its rejections share by share; a failure leaves each signal wholly written or untouched, and the marker moved only if all is written |
| SinkModel.Sink.Apply | internal/historian/sink.go:381-388 | Either form leaves the fold over the accepted rows, moves the marker and reports the rejections, or leaves each signal wholly written or untouched and the marker moved only if all is written |
| SinkModel.Sink.Joined | internal/historian/sink.go:432-446 | The rejections of the shares are joined in the order of the partitions |
| SinkModel.RejectedAreRefused | internal/historian/sink.go:432-446 | Every rejection of a partitioned page is a row of the page that the schema refuses |
| CoverageWrite.NextSharesAre | internal/historian/pipeline.go:613-631 | The shares of a dispatched page are, partition by partition, exactly the stretch of the stream that follows what was given to that writer before, so nothing is skipped or given twice |
| CoverageFollow.LoadKeeps | internal/historian/pipeline.go:347-368 | Reading the markers at a start keeps the invariant, with any writer count before |
| CoverageFollow.ReadKeeps | internal/historian/pipeline.go:374-383 | A read from the cursor or ahead of it keeps the invariant |
| CoverageFollow.LagKeeps | internal/historian/pipeline.go:432-443 | A cursor that lags the marker moves the reader to the marker without skipping an unwritten row |
| CoverageFollow.EnqueueKeeps | internal/historian/pipeline.go:444-484 | Taking a page of the followed store keeps the invariant |
| CoverageFollow.FreshKeeps | internal/historian/pipeline.go:451-473 | A recreated store's first page, with the partition markers zeroed first, keeps the invariant |
| CoverageFollow.BackKeeps | internal/historian/pipeline.go:497-508 | Going back to the cursor once nothing is in flight keeps the invariant |
| CoverageFollow.MarkKeeps | internal/historian/pipeline.go:779-826 | Marking the pages whose shares are all written keeps the invariant |
| CoverageFollow.AckKeeps | internal/historian/pipeline.go:541-564 | An ack never passes the marker and never lands on another store |
| CoverageFollow.ResumeCovered | internal/historian/pipeline.go:71-103 | Every row at or below the resume point of a start is in the table |
| CoverageFollow.FollowKeeps | internal/historian/pipeline.go:315-508 | Every step of the fetcher and the marker goroutine keeps the invariant |
| CoverageWrite.DispatchKeeps | internal/historian/pipeline.go:613-652 | Splitting a page and queuing it for the marker before its shares keeps the invariant |
| CoverageWrite.CommitKeeps | internal/historian/pipeline.go:698-705 | A writer's transaction, its answer heard or lost, keeps the invariant |
| CoverageWrite.LookIsRight | internal/historian/pipeline.go:709-717 | After a failed write the own marker has reached the batch's end if and only if the batch is in the database |
| CoverageWrite.FinishKeeps | internal/historian/pipeline.go:725-734 | The pending counts stay the numbers of unwritten shares |
| CoverageWrite.WriteKeeps | internal/historian/pipeline.go:581-736 | Every step of the dispatcher and the writers keeps the invariant |
| CoveragePaged.PassKeeps | internal/historian/bridge.go:215-346 | Every step of the one-page-at-a-time pass keeps the invariant, with the next page read while the last is applied, also from a store that is recreated meanwhile |
| CoverageBlank.StepBlank | internal/historian/pipeline.go:347-368 | Before anything is marked a pipeline skips nothing, has written nothing and follows no store without a page of it, and every step keeps that |
| CoverageStranded.StrandedStep | internal/historian/pipeline.go:390-404 | A bridge that goes on with pages of a store that is gone, none of them with a row to write, marks or drops them without harm, step by step |
| CoverageStranded.RecreateStrands | internal/historian/pipeline.go:390-404 | Recreating the store under a bridge without a row to write, in either mode, leads to such a state or to one that follows the new store |
| NoLoss.StepKeeps | internal/historian/pipeline.go:294-844 | Every step keeps the invariant, also a recreation of the store once a page was marked, or while no partition marker is set and no pipeline has a row left to write |
| NoLoss.NothingIsLost | internal/historian/pipeline.go:294-844 | Over every run: rows at or below the markers are in the table, a restart skips no unwritten row, the cursor is at most one past the page marker of its store, and one store at a time is in flight |
| NoLoss.TableIsJournal | internal/historian/sink.go:390-399 | At every moment the table is the fold of the committed rows in commit order |
| ExactlyOnce.RowsApplyExactlyOnce | internal/historian/pipeline.go:581-736 | With one writer count and one store, over every run with crashes, lost answers and failed marker reads that commits no batch twice, a partition's committed rows are its rows of the stream up to its claim, each once, in order |
| ExactlyOnce.SignalsApplyInOrder | internal/historian/pipeline.go:613-736 | Each signal's committed rows are its rows of the stream in stream order |
| ExactlyOnce.EachSeriesIsSequential | internal/historian/pipeline.go:662-736 | At every moment each signal's series is that of the sequential fold up to its partition's claim |
| Exactly.ExactlyOnceExactly | internal/historian/pipeline.go:709-724 | Over every run with one writer count and one store the committed offsets of every partition strictly increase if and only if no writer commits a batch that is in the database already |
| Exactly.DirtyCommitRepeats | internal/historian/pipeline.go:709-724 | Committing a batch that is in the database already repeats rows of its partition |
| Exactly.AnsweredIsClean | internal/historian/pipeline.go:706-724 | A run in which every marker read answers never commits a batch twice |
| Exactly.CommittedIsMarkerPlusAhead | internal/historian/pipeline.go:738-844 | At every moment the committed rows are, signal by signal, the stream up to the page marker and the rows ahead of it |
| Exactly.TableIsMarkerPlusAhead | internal/historian/pipeline.go:738-844 | At every moment the table is the sequential one at the page marker with the rows ahead of it applied |
| Exactly.PipelinedTableIsSequential | internal/historian/pipeline.go:738-844 | What is committed is the stream up to the page marker if and only if no row is ahead of it, and the table is the sequential one if and only if the rows ahead change nothing |
| Exactly.DrainedAhead | internal/historian/pipeline.go:497-508 | With nothing in flight the rows ahead of the page marker are exactly those written before the bridge started that it has not passed |
| Exactly.DrainedTableIsSequential | internal/historian/pipeline.go:497-508 | With nothing in flight what is committed is the stream up to the page marker if and only if the marker has passed every row written before the bridge started, and then the table is the sequential one |
| PagedOnce.PagedRowsApplyExactlyOnce | internal/historian/bridge.go:215-346 | One page at a time with one writer, over every run in one store: the committed rows are the stream up to the page marker, each once and in order, and the table is the sequential one |
| Recreated.RecreatedStoreIsLossless | internal/historian/pipeline.go:426-473 | Over every run with safe recreations, with the bridge as it is: no continuation of a recreation marks an unwritten row if and only if some page was marked, or no partition marker is set and no pipeline has a row of the old store read, decoded or dispatched |
| Recreated.StoppedFirst | internal/historian/bridge.go:415-435 | When the bridge stops before the store is recreated, that is: some page was marked or no partition marker is set |
| Recreated.RowsLeftLose | internal/historian/pipeline.go:390-736 | From every state in which a pipeline has a row of the old store left there is a run that commits it, and after a restart marks a row of the new store that is not written |
| Recreated.LossyRecreation | internal/historian/pipeline.go:347-473 | With a partition marker set and no page marked, a new store loses any first row of that partition |
| Recreated.UnmarkedRecreationLosesARow | internal/historian/pipeline.go:426-473 | A run where the store is recreated before the first mark loses a row of the new store |
| Recreated.RecreationUnderABridgeLosesARow | internal/historian/pipeline.go:426-473 | With no marker set at all, a recreation under a bridge with a page in flight loses a row of the new store |
| Recreated.RestartIsAheadOfTheMarker | internal/historian/pipeline.go:347-368 | A run that restarts before the first mark has a table ahead of its page marker |
| Recreated.FailedLookWritesTwice | internal/historian/pipeline.go:709-724 | A run from the empty database with a lost answer and then a failed marker read has one row committed twice |
| Redelivery.NoOwedCommandIsPassed | internal/engine/redelivery.go:51-92 | Over every run whose live deliveries made their check, a command below the delivery cursor that is still owed was published to a live subscription |
| Redelivery.ReadableIsGuarded | internal/engine/redelivery.go:109-131 | While the standalone journal can be read every live delivery makes its check |
| Redelivery.ReplayEndsWhereItStopped | internal/engine/redelivery.go:163-225 | Over every run a replay publishes, in order, exactly the commands owed between its start and where it stopped, and leaves the cursor there: at the head, a stall, the cap or a failed read |
| Redelivery.CrashRepeatsABatchAndStrays | internal/engine/redelivery.go:25-32 | Over every run, after a crash at any point the next subscribe repeats at most one batch and the live publishes that went over an owed command |
| Redelivery.CrashRepeatsAtMostABatch | internal/engine/redelivery.go:25-32 | While every live delivery makes its check that is at most one batch |
| Redelivery.UncheckedDeliveriesRepeatWithoutBound | internal/engine/redelivery.go:113-116 | With the journal unreadable there is, for every n, a run after which n commands are repeated |
| Redelivery.PublishesInOrderOnce | internal/engine/redelivery.go:109-131 | Over every run without crashes the published offsets strictly increase across live delivery and replay |
| Redelivery.UnreadableJournalSkips | internal/engine/redelivery.go:109-131 | In every state of a crash-free run whose deliveries made their check, the next live delivery keeps the promise if and only if no command is owed between the cursor and it, whether or not the journal lets the code ask |
| Redelivery.AnUnreadableJournalRun | internal/engine/redelivery.go:109-131 | A run in which the journal cannot be read and a command that is still owed is passed unpublished |
| Redelivery.StepKeeps | internal/engine/redelivery.go:51-225 | Every step of delivery and replay keeps what is known of the lock, the cursor and a replay's batch |
| Redelivery.StepSkipsNone | internal/engine/redelivery.go:51-225 | Every step whose live delivery makes its check leaves everything below the cursor dealt with |
| LogGate.AfterSlash | internal/loggate/loggate.go:147-154 | The level segment begins after the topic's last slash |
| LogGate.Gate.constructor | internal/loggate/loggate.go:157-164 | A new gate is empty and valid |
| LogGate.Gate.Admit | internal/loggate/loggate.go:176-250 | The verdict, the untracked answer and the writes as functions of the state before; every verdict is counted; a collapsed record follows a stored one of its key in the same window; a stored one opens its key's window and is charged to its service; other keys and services are untouched |
| LogGate.Gate.Repeated | internal/loggate/loggate.go:188-208 | A record of an open window is withheld exactly if the held bytes allow it; an ended window is written first |
| LogGate.Gate.Unwithheld | internal/loggate/loggate.go:210-249 | A record is refused exactly if its service's live window has spent the budget; full tables let it past, untracked |
| LogGate.Gate.ServiceWindow | internal/loggate/loggate.go:211-226 | An ended window is noticed and replaced, a live one kept, and a full table opens none |
| LogGate.Gate.Charge | internal/loggate/loggate.go:227-234 | A record spends its budget or is counted as dropped |
| LogGate.Gate.Withhold | internal/loggate/loggate.go:194-200 | A withheld record is counted in its window, and its payload kept whenever it fits |
| LogGate.Gate.OpenRepeat | internal/loggate/loggate.go:237-248 | A stored record opens a window of its key if the table has room, with its heap entry |
| LogGate.Gate.EndRepeat | internal/loggate/loggate.go:326-339 | An ended window's summary carries its count, and the held bytes fall by its payload |
| LogGate.Gate.Discard | internal/loggate/loggate.go:326-331 | A forgotten window takes its payload's bytes and its count with it, so the held bytes and the pending counts stay exact |
| LogGate.Gate.EndService | internal/loggate/loggate.go:341-352 | An ended window's notice carries its drops by budget |
| LogGate.Gate.Pop | internal/loggate/loggate.go:311-322 | A heap entry ends its window only if the generation is still the window's |
| LogGate.Gate.Due | internal/loggate/loggate.go:278-287 | Exactly the windows that ended by now are ended and written; only later entries stay in the heap |
| LogGate.Gate.Close | internal/loggate/loggate.go:292-302 | Nothing stays pending: the counts written equal the verdicts given |
| LogGate.Gate.SummaryTells | internal/loggate/loggate.go:252-264 | The summary a window will write tells how many records it withheld, when the first and last came, the last author, and one of their payloads |
| LogGate.Gate.StoredRate | internal/loggate/loggate.go:210-235 | With steady time and a service table that never fills, any interval one window long holds at most two budgets' worth of a service's records |
| LogGate.RateBound | internal/loggate/loggate.go:210-235 | Disjoint windows within their budget give that bound for every interval |
| LogGate.ScheduledPop | internal/loggate/loggate.go:311-326 | Taking an entry off the heap leaves every live window with its entry and every stale entry already due |
| FetchLogs.AddSatClamps | internal/engine/exec_fetchlogs.go:282-292 | The wrapping addition with its sign tests is the sum held within 64 bits |
| FetchLogs.SeekTS | internal/store/seekts.go:20-60 | On any stream the search ends behind an old record and before a recent one, or a read failed |
| FetchLogs.SeekSorted | internal/store/seekts.go:10-19 | On a stream in time order the search finds exactly the first recent record |
| FetchLogs.SeekLeavesNothing | internal/engine/exec_fetchlogs.go:189-196 | On a nearly sorted stream nothing before the search's result is in the window |
| FetchLogs.Scan | internal/engine/exec_fetchlogs.go:218-266 | The walk collects exactly the wanted records up to where it stops, and stops for the window, a budget, the head or a failed read |
| FetchLogs.FetchPage | internal/engine/exec_fetchlogs.go:197-280 | One page: its records, its resume point, its gap flag and its completeness; no page only if a read failed |
| FetchLogs.PageAdvances | internal/engine/exec_fetchlogs.go:252-265 | A page that meets a record is complete or resumes strictly later |
| FetchLogs.NoGapNothingPruned | internal/engine/exec_fetchlogs.go:207-214 | On a first page without a gap, whose reads of the LWM tell, nothing retention removed was in the window |
| FetchLogs.PageExact | internal/engine/exec_fetchlogs.go:226-266 | A page without a gap holds exactly what the window has between its resume point and its end, also while retention advances up to the resume point |
| FetchLogs.FollowingIsExact | internal/engine/exec_fetchlogs.go:186-280 | Following next to a complete page, with appends and retention in between and, up to the reader's position, during the pages, while no page shows a gap, returns exactly the window's records of everything ever appended, each once, in order |
| FetchLogs.SaturationLosesARecord | internal/engine/exec_fetchlogs.go:200 | For every window whose end plus the skew overflows there is a stream whose page misses a record |
| FetchLogs.RetentionHidesTheGap | internal/engine/exec_fetchlogs.go:201-214 | If retention advances between the LWM read and the search, or had removed nothing when the LWM was read, a first page shows no gap and every removed record is missing |
| FetchLogs.RemovedIsMissing | internal/engine/exec_fetchlogs.go:218-256 | A record that retention removed before the scan is on no page |
| FetchLogs.MovedBeforeTheSearch | internal/engine/exec_fetchlogs.go:201-214 | For every LWM that moves before the search there is a first page without a gap that misses a record of the window |
| FetchLogs.MovedBeforeTheScan | internal/engine/exec_fetchlogs.go:202-218 | The same for every LWM that moves by more than one between the search and the scan |
| FetchLogs.GapIsToldExactly | internal/engine/exec_fetchlogs.go:201-214 | No gap means nothing removed was in the window, on every nearly sorted stream, if and only if the LWM is the same at the scan as when it was read, or nothing was removed, or it moved by one after the search |
| FetchLogs.MovedPastTheResumePoint | internal/engine/exec_fetchlogs.go:201-218 | For every resume point that retention passes after the LWM was read there is a resumed page without a gap that misses a record of the window |
| FetchLogs.ResumedGapIsToldExactly | internal/engine/exec_fetchlogs.go:207-209 | On a resumed page no gap means nothing removed past the resume point was in the window, on every nearly sorted stream, if and only if retention has not passed the resume point at the scan, or had when the LWM was read |
| SignalIndex.IndexRight | internal/historian/signals.go:270-304 | For every order and repetition of one stream's records: flags are live entries of their topics, topics hold their newest record, and a newest definition still held gives the flag |
| SignalIndex.ApplyFlagsLive | internal/historian/signals.go:276-303 | Every application keeps each flag equal to the live entry of its topic |
| SignalIndex.LoadThenDrain | internal/historian/signals.go:191-257 | A snapshot taken any time after the head was captured, then the stream from that head, gives a signal its newest definition's flag |
| SignalIndex.OrderFreeExactly | internal/historian/signals.go:270-304 | A signal's flag is the same for every order of one stream's records if and only if its newest definition is what its topic holds or no topic holds a definition of it |
| SignalIndex.TwoOrders | internal/historian/signals.go:298-303 | In every other case there are two orders of the same records, one that leaves the signal a flag and one that leaves none |
| SignalIndex.Signals.Put | internal/historian/signals.go:270-304 | The in-place update is the index function's step |
| SignalIndex.Signals.Load | internal/historian/signals.go:191-217 | Loading replaces the index with the snapshot's and moves the cursor past the head captured before it, never back; a failed ack leaves everything as it was |
| SignalIndex.Signals.Drain | internal/historian/signals.go:222-257 | A page read with the cursor below the low-water mark asks for a resync, with the pages before it applied and acked; otherwise every record from the cursor is applied, page by page, and the cursor reaches the head; a failed read or ack leaves whole pages applied and the cursor not past them |
| SignalIndex.Signals.Sync | internal/historian/signals.go:168-186 | Whatever fails, what is loaded follows the stream: only its records, and every definition before the cursor that its topic still has; once it went through, every signal whose newest definition its topic still holds has that definition's flag |
| SignalIndex.TakenFollows | internal/historian/signals.go:191-217 | A snapshot taken at any moment after the head was captured follows the stream from past that head |
| SignalIndex.FollowsGrows | internal/historian/signals.go:222-257 | What follows the stream still does when the stream grows, so one sync can go on where the last one ended |
| SignalIndex.Signals.Logged | internal/historian/signals.go:116-121 | The answer is the newest definition's where its topic still holds it, and yes where no topic holds a definition of the signal |
| Watchdog.FirstMatch | internal/store/store.go:867-877 | The first record of the view in a range, or that there is none |
| Watchdog.Continue | internal/cursorwatch/watchdog.go:333-354 | Going on with a scan: a found record that left the view is dropped, and the scan then knows the answer or has read a cap further |
| Watchdog.Checks.UnreadAge | internal/cursorwatch/watchdog.go:320-358 | A check knows the oldest unread record, or has read a whole cap further; other cursors are untouched and failed reads lose nothing |
| Watchdog.KnowsIsFullScan | internal/cursorwatch/watchdog.go:320-358 | What the scan knows is what reading every record from the cursor finds |
| Watchdog.ChecksAgree | internal/cursorwatch/watchdog.go:333-351 | That holds after every check of a stream that grows and whose records leave the view |
| Watchdog.KnowsInTime | internal/cursorwatch/watchdog.go:340-351 | On a still stream it knows within the distance to the head divided by the cap, rounded up |
| Limiter.RefillPaid | internal/httplimit/limiter.go:151-160 | A refill never gives more than the burst or than the time earned |
| Limiter.SweptWasFull | internal/httplimit/limiter.go:162-172 | Forgetting a bucket idle for the TTL gives nothing when the TTL refills the burst |
| Limiter.RetryAfterSuffices | internal/httplimit/limiter.go:120-127 | The delay a refused caller is told is enough for a token |
| Limiter.Requests.Acquire | internal/httplimit/limiter.go:92-134 | A request is granted within all bounds, or refused with the bound that was reached |
| Limiter.Requests.Release | internal/httplimit/limiter.go:135-148 | A release closes its grant once; calling it again changes nothing |
| Limiter.Requests.Sweep | internal/httplimit/limiter.go:162-172 | Exactly the buckets idle longer than the TTL are forgotten, at most once a minute |
| Limiter.Requests.EvictOldestIdle | internal/httplimit/limiter.go:174-186 | The idle bucket seen longest ago is forgotten, and none when none is idle |
| Limiter.Requests.BoundsHold | internal/httplimit/limiter.go:114-133 | At any time the counters are the open grants, so both concurrency bounds hold |
| Limiter.Requests.RateHolds | internal/httplimit/limiter.go:108-131 | Between two admissions of a bucket there are at most the burst and what the time between earned |
| Limiter.LifelongSweep | internal/httplimit/limiter.go:162-172 | Sweeping an idle bucket leaves the account of all its caller's admissions in order |
| Limiter.Requests.RateHoldsOverSweeps | internal/httplimit/limiter.go:92-172 | With steady time and a TTL that earns the burst, the same bound holds over all the buckets of a caller none of whose buckets was evicted |
| Ledger.Commands.Expire | internal/engine/ledger.go:182-195 | Ids leave only over the window or from a full ledger, and with steady time none over the window stays |
| Ledger.Commands.Admit | internal/engine/ledger.go:82-96 | The verdict; a second New without a forget in between means the window passed or the ledger was full since; at most the limit of ids is held |
| Ledger.Commands.Acked | internal/engine/ledger.go:110-117 | A stored ack never changes while its id is remembered |
| Ledger.Commands.Forget | internal/engine/ledger.go:100-104 | A forgotten id is new again, and no other id is touched |

## Left out

- HTTP, MQTT, Keycloak, TLS, key handling, the blob store, configuration, metrics and logging: plumbing around the logic modelled here.
- The store's own files, indexes and caches: a stream is a sequence of records with increasing offsets, a cursor a number.
- PostgreSQL: a transaction is one atomic step, a statement's effect a function on the table, and a refused row a property of the row.
- A write that fails has either committed or never will; a transaction that commits later than its failure was reported is not modelled.
- Node incarnations that keep the log under a new store id, and nodes that send no store id with the heuristics for them.
- The `is_logged` filter inside the pipeline: the signal index is proved on its own.
- The marks for late writes, and the health, retry delays and timers of every component: a retry is a step that may happen at any time.
- The slot count that bounds the pages in flight: the model allows any number.
- The array layout of the deadline heap, and the wake-up channel of the log gate.
- JSON: whether a payload decodes and what it names are given with the record; a repeat key is the tuple that is hashed.
- The text of summaries, notices and findings; the watchdog's findings and their publication; stale cursors.
- The refusals the ledger owes to other senders of an id, and who receives an ack.
- The page rate limit of fetchLogs and its budget by record size.
- Grants, contracts, the registry and replication between nodes.
- ExactlyOnce.RowsApplyExactlyOnce: for runs with one writer count, one store, the pipeline and no batch committed twice, which Exactly.ExactlyOnceExactly shows to be needed; PagedOnce.PagedRowsApplyExactlyOnce is the same for one page at a time; a changed writer count and a recreated store repeat rows by design.
- PagedOnce.PagedRowsApplyExactlyOnce: for one writer, because several commit their shares of a page apart and repeat them after a failure.
- NoLoss.NothingIsLost: for runs whose recreations are safe; Recreated.RecreatedStoreIsLossless shows that after any other one some continuation loses a row.
- Redelivery.NoOwedCommandIsPassed: for runs whose live deliveries made their check, which Redelivery.UnreadableJournalSkips shows to be needed.
- FetchLogs.FollowingIsExact: for pages during which retention stays within what FetchLogs.GapIsToldExactly and FetchLogs.ResumedGapIsToldExactly show to be needed.
- LogGate.Gate.StoredRate: says nothing once time went back or a service went untracked.
- Limiter.Requests.RateHolds: admissions are timed by their bucket's clock, which is the caller's time when time does not go back; counts start anew when a bucket is forgotten.
- Limiter.Requests.RateHoldsOverSweeps: says nothing of a caller whose bucket was evicted because the table was full, which gives that caller a full burst by design.

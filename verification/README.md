# Import accounting, decision archive, solar re-entry guard and chart loops

This project models the stateful core of the optimizer's diagnostics and accounting and proves what it promises.

**Import accounting.** An event-loop object measures intervals of imported energy, freezes each one as an event with
a rising number, and queues it. The queue drains into SQLite tables either directly or through one database thread, by
snapshots of at most 16 events. Every database call may fail before it commits, succeed, or commit and then raise;
replies of the thread may come late, be lost or be delivered again. `Accounting`, `ImportStateStore` and `ImportLedger`
hold the state, the tables and the operations; `Reconciliation` puts ledger, queue, jobs, replies and tables into one
transition system; `ExactlyOnce`, `UnknownDays`, `DayTrust`, `SummaryCache` and `CompleteDay` prove what holds over every
run of it; `RestartGap` and `MissedCheckpoint` say exactly when the last day of the session before can be reported
complete, which the design does not intend; `DurableHistory` proves what any sequence of store calls keeps.
`StorageWorker` is the thread itself: its admission counters, its futures and its shutdown, one step per critical section.

**Decision archive.** Rows of the live decision deque are appended to hourly segments. An append may leave any number of
complete lines and a fragment of the next; a replacement, removal or publication may fail before or after it has
happened; a stop may be asked for between any two segments. `TraceArchive` holds the segments, the index and one flush;
`TraceRecovery`, `TraceAppending`, `TracePruning` and `TraceFlushing` prove what recovery, appends, pruning and whole
flushes keep; `TraceClock` is the anchor that wall time is judged by. `TraceDownload`, `TracePinning` and `TraceViews` are
the pinned 24-hour downloads, over runs that mix them with flushes, stops and restarts; `TraceRuns` adds where appends
land, how trust ends and drifts, and settled downloads over such runs; `TraceStaleRange` is a run whose view is not
stable. `TraceGaps` shows that losses are noted before their evidence goes. `TraceCapture` is the observer that numbers
rows of the deque and notices the ones that fell out; `TraceConfirmation` proves that what it is told is durable has been
on disk, and `TraceJourney` runs observer and archive together. `TraceStore` is the writer and the download object,
updated in place.

**Solar re-entry guard.** `SolarReentry` is the guard; `Qualification` characterises, for any sequence of calls, exactly
when it lets solar in again.

**Loops.** `BlockIntegral` is the time-weighted integral of a five-minute block, `Resampler` the two-pointer chart
resampler and `PointMerge` the merge of point series.

Each part has functions that say what an operation does to its state, lemmas about those functions, and, because the
original updates objects in place, a class whose methods and loops are proved to compute them. Instants of the archive are
integers in microseconds; energy, prices and the guard's clocks are reals. Failures are inputs: every lemma holds for every
choice of them.

The line numbers below refer to the repository's own files.

## Model

| member | source | states |
|---|---|---|
| ExactlyOnce.ExactlyOnceDelivery | app/import_topup_ledger.py:254-330 | Over every run: the tables hold a prefix of all queued events after the rows found at the start, each once and unaltered, and equal one clean insert of that prefix; what left the queue is stored; the queue is exactly the rest; a queued event is never refused as invalid or as a reused ID. |
| ExactlyOnce.RetireStopsAt | app/import_topup_ledger.py:317-321 | Acknowledgements of the first stored events never retire an event beyond them, and leave a suffix of the queue. |
| ExactlyOnce.BatchNext | app/storage_worker.py:101-119 | A snapshot of consecutive queued events, run against faults, stores a longer prefix, acknowledges only stored events, and when complete has stored its whole slice. |
| ExactlyOnce.FlushLoopDelivers | app/import_topup_ledger.py:294-301 | The draining loop pops an event only once it is stored, and never meets a reused-ID or invalid-event refusal. |
| UnknownDays.UnknownDaysBecomeDurable | app/import_topup_ledger.py:68-86 | Over every run unknown days only grow and keep their first reason; whenever the queue is empty and no revision is outstanding, each is stored as unknown, including the day of a checkpoint once it is learned (`RestartGap` says when it is). |
| UnknownDays.RecordedDoubtIsDurable | app/import_topup_ledger.py:188-200 | A synchronous reading that returns normally leaves no doubt in memory alone: every unknown day is stored as unknown. |
| DayTrust.SpanCoversTheMeter | app/import_topup_ledger.py:158-187 | The energy of consecutive measured steps of one day is at least last minus first meter reading, and equal to it when every reading rises. |
| DayTrust.WithoutOverflowNoEnergyIsLost | app/import_topup_ledger.py:254-292 | Over every run in which no overflow burned a number, the queued events of every day, known or not, carry exactly the energy that its readings measured. |
| DayTrust.QueuedEnergyCoversTheMeter | app/import_topup_ledger.py:158-200 | Over every run, for every day if nothing overflowed and otherwise for every day still trusted, the queued energy covers the meter's growth across any stretch of measured readings, and equals it where every reading rises. |
| DayTrust.RunKnows | app/import_topup_ledger.py:117-156 | Over every run each reading either proved the day it touches or left it marked unknown, the queued energy of a trusted day is exactly the measured energy, and only a proven entry opens a day. |
| CompleteDay.CompleteDayIsVouched | app/import_topup_ledger.py:342-377 | If a summary calls a day complete then no doubt, tail or queued event of the day is outstanding, every reading touching it was a proven entry or continuation, it was entered that way or known in the store, if it is the last day of the session before then this session missed that session's checkpoint, and its total is the stored one plus exactly the measured energy. |
| RestartGap.LastDayIsIncompleteUnlessMissed | app/import_topup_ledger.py:73-86 | In both modes, over every run: once the found checkpoint is learned its day is unknown; and its day is reported complete only after the session stored rows of its own without having learned it. |
| RestartGap.FirstRowDecides | app/import_topup_ledger.py:73-86 | A synchronous session misses the checkpoint exactly when its first row is stored before a checkpoint read has succeeded. |
| RestartGap.FirstRowIsTaught | app/storage_worker.py:101-119 | With a worker, the job that stores the session's first row has read the found checkpoint, and its reply carries it. |
| RestartGap.WithoutDroppedRepliesNothingIsMissed | app/import_topup_ledger.py:312-330 | With a worker whose replies are taken in order and never dropped, over every run, the last day of the session before is never reported complete. |
| MissedCheckpoint.LastDayIsCompleteExactlyWhenMissed | app/import_topup_ledger.py:73-86 | In both modes, a session that works on other days and can answer from the tables reports that last day, known in the store, complete if and only if it stored rows without having learned the checkpoint. |
| MissedCheckpoint.AFailedReadReportsTheLastDayComplete | app/import_topup_ledger.py:73-86 | A run in which one failed checkpoint read lets the next reading overwrite the checkpoint, after which the unfinished last day is reported complete. |
| MissedCheckpoint.ADroppedReplyReportsTheLastDayComplete | app/import_topup_ledger.py:312-330 | A deferred run with the same outcome, after the reply of its first snapshot is dropped. |
| CompleteDay.FirstReadingEnters | app/import_topup_ledger.py:140-149 | In a vouched day the first reading of the session is its proven entry from a retained inactive sample. |
| CompleteDay.StartDayIsNeverComplete | app/import_topup_ledger.py:54-59 | The day a session started on is never reported complete by it. |
| CompleteDay.FaultFreeDrainStoresEverything | app/import_topup_ledger.py:294-301 | Without faults one drain of a synchronous ledger stores everything queued. |
| SummaryCache.CacheRefinesTheRead | app/import_topup_ledger.py:303-330 | With replies taken in completion order, a served cache equals the qualified store summary over tables that hold every event queued so far. |
| SummaryCache.LateRepliesNeverRestoreTrust | app/import_topup_ledger.py:303-330 | After a capture, permission change or invalidation and anything that follows, new snapshots included: whatever is cached answers a snapshot asked after it; no earlier reply, in whatever order and however often, restores trust. |
| DurableHistory.HistoryKeepsRowsUnique | app/state_store.py:267-320 | Over any new, replayed and failing calls: row IDs stay unique, rows are only appended, the checkpoint is that of the newest row, and every carried unknown day is stored as unknown. |
| DurableHistory.HistoryOnlyDegradesCoverage | app/state_store.py:294-314 | Coverage moves only from absent to known or unknown and from known to unknown, and the first unknown reason stays. |
| DurableHistory.HistoryNeverLowersTheFloor | app/state_store.py:349-392 | Neither the total nor the highest trusted price of a day ever falls. |
| DurableHistory.ReplayChangesNothing | app/state_store.py:277-293 | Replaying stored rows changes no table, however often and with whatever faults. |
| DurableHistory.InsertsCover | app/state_store.py:294-314 | After clean inserts a day is known only if it was before or some event opened it as complete. |
| ImportStateStore.HighestIsUnique | app/state_store.py:349-392 | The dearest trusted price of a day is determined by its lines, with no reference to the loop that finds it. |
| ImportStateStore.StateStore.RecordInterval | app/state_store.py:243-320 | The transaction leaves the specified tables: refused, replayed, failed before or after the commit, or one new row with its coverage and checkpoint. |
| ImportStateStore.StateStore.GetCheckpoint | app/state_store.py:322-330 | Reads the singleton checkpoint or reports the failure. |
| ImportStateStore.StateStore.ImportTopupSummary | app/state_store.py:332-392 | The loop's running total, maximum and flag are the day's total, dearest trusted price and missing-price verdict. |
| ImportTopupLedgerObject.ImportTopupLedger.Record | app/import_topup_ledger.py:103-200 | One reading turns ledger and tables into exactly the specified ones, including the unretained-snapshot invalidation. |
| ImportTopupLedgerObject.ImportTopupLedger.MeasureReading | app/import_topup_ledger.py:117-187 | Marks, energy and the moved boundary of one reading. |
| ImportTopupLedgerObject.ImportTopupLedger.PersistInterval | app/import_topup_ledger.py:254-292 | A number is consumed even when the queue overflows; otherwise the frozen event is queued and drained. |
| ImportTopupLedgerObject.ImportTopupLedger.FlushPending | app/import_topup_ledger.py:294-301 | The popping loop equals its recursive specification against a failing store. |
| ImportTopupLedgerObject.ImportTopupLedger.SetPermissionOwner | app/import_topup_ledger.py:223-252 | A change of import owner closes an interval without energy and opens the tail of an ending import. |
| ImportTopupLedgerObject.ImportTopupLedger.InvalidateHistory | app/import_topup_ledger.py:214-221 | Invalidation bumps the generation, drops the cache and marks the current and the last day. |
| ImportTopupLedgerObject.ImportTopupLedger.AcceptReconciliation | app/import_topup_ledger.py:312-330 | Matching heads retire, a checkpoint may be learned, and the cache opens only under the exact current key with nothing queued. |
| ImportTopupLedgerObject.ImportTopupLedger.ReadDaySummary | app/import_topup_ledger.py:342-377 | The summary as qualified by staleness, source, pending work and the ledger's own doubt. |
| StorageWorkerSpec.AdmissionIsBounded | app/storage_worker.py:52-65 | Under every interleaving of callers and thread: ordinary jobs at most capacity - 1, outstanding at most capacity and equal to the queued and running jobs; before a stop an accounting job is refused only if another one is outstanding. |
| StorageWorkerSpec.ClosedWorkersResolveEverything | app/storage_worker.py:86-157 | No future is resolved twice; once the thread has left a closed worker each admitted future is resolved exactly once; the store is closed once, after its last operation. |
| StorageWorkerObject.StorageWorker.SubmitJob | app/storage_worker.py:52-65 | Admission: a numbered future and new counters, or a refusal that changes nothing. |
| StorageWorkerObject.StorageWorker.CloseQueue | app/storage_worker.py:86-98 | The draining loop of a close cancels every waiting job and gives its slot back. |
| Qualification.AllowedIffQualified | app/solar_reentry.py:83-154 | After any calls an evaluation while required is allowed if and only if some earlier tick opened a run of usable evaluations in one context, without clock or report regression or a stream idle for over 60 s, at one of which a stream advanced with 30 s of monotonic time and of advance in both streams behind it. |
| Qualification.AllowedIsCurrent | app/solar_reentry.py:156-174 | An allowed evaluation is current for the same arguments. |
| Qualification.StaleGenerationNeverCommits | app/solar_reentry.py:176-187 | A generation obtained before a reset never commits after it, whatever is called in between. |
| Qualification.EpochNeverRegresses | app/solar_reentry.py:113-135 | Within one clock and context epoch accepted reports never regress in either stream, over any run of calls. |
| SolarReentryObject.SolarReentryGuard.EvaluateTick | app/solar_reentry.py:83-154 | One evaluation changes the guard exactly as specified and returns its verdict. |
| SolarReentryObject.SolarReentryGuard.CommitGeneration | app/solar_reentry.py:176-187 | A commit succeeds only for the current, qualified generation and then clears the latch. |
| SolarReentryObject.SolarReentryGuard.ResetProof | app/solar_reentry.py:45-54 | A reset discards the proof and starts a new generation. |
| TraceRecovery.RecoveryKeepsEveryIdentity | app/decision_trace_store.py:785-834 | Whatever step fails, recovery keeps the identity of every complete row in its own hour and invents no line. |
| TraceRecovery.RecoveryIndexesTheDisk | app/decision_trace_store.py:785-834 | A recovery that succeeds leaves an index whose committed identities are those on disk and the disjoint union of the segments' sets; under a trusted clock nothing torn, garbled, misplaced or repeated remains. |
| TraceRecovery.UncertainRecoveryTouchesNothing | app/decision_trace_store.py:813-821 | Under an uncertain clock recovery changes no segment. |
| TraceRecovery.KeepMeans | app/decision_trace_store.py:758-783 | A pass over a segment keeps exactly the eligible identities that are not excluded, each once. |
| TraceRecovery.KeepsEverything | app/decision_trace_store.py:798-814 | Nothing needs repair exactly when the segment is tidy and repeats no committed identity. |
| TraceAppending.AppendingStoresWhatIsDue | app/decision_trace_store.py:836-847 | An append pass, torn or not, only adds due rows and leaves a tidy archive; one that completes has stored every due row. |
| TraceAppending.AppendsLandOnCompleteLines | app/decision_trace_store.py:836-847 | In an append pass over an exactly indexed, undeferred archive each batch goes to a segment that ends in a complete line. |
| TraceRuns.NoAppendMeetsATornLine | app/decision_trace_store.py:883-930 | In every run, whatever was on disk at boot: whenever a flush comes to write a batch, the segment it goes to ends in a complete line and holds nothing but complete rows of its hour. |
| TraceRuns.FlushAppendsThem | app/decision_trace_store.py:899-935 | The batches and archive of that statement are the ones that the flush appends and prunes. |
| TraceAppending.TornTailsSpoil | app/decision_trace_store.py:836-841 | What appending to a torn tail would cost: a garbled line in place of the first row. |
| TraceAppending.GatheringTakesWhatIsDue | app/decision_trace_store.py:904-927 | Gathering takes every due row that is not committed, each identity once and by its own hour, and nothing committed. |
| TracePruning.PruningKeepsRecentRows | app/decision_trace_store.py:855-881 | Whatever fails, is pinned or is stopped: pruning removes no row at or after the cutoff, adds none, and keeps the archive clean and, unless recovery is due, exactly indexed. |
| TracePruning.UndisturbedPruningIsExact | app/decision_trace_store.py:855-881 | Without failure, stop or pin exactly the rows at or after the cutoff remain. |
| TraceFlushing.FlushActs | app/decision_trace_store.py:883-938 | A flush that acts on a time adds only due rows and keeps, in a tidy archive, every row of the last 24 hours; when it reports success every due row is on disk in its own hour and nothing is repeated or garbled. |
| TraceFlushing.IdleFlushKeepsEveryRow | app/decision_trace_store.py:883-902 | A flush that fails early or ends with an unresolved clock adds no row and loses the identity of none; under a clock already in doubt an unresolved one leaves every byte alone. |
| TraceFlushing.FlushKeepsTheArchive | app/decision_trace_store.py:883-938 | Every flush leaves a sound archive (no recovery pending means an exact index), and a tidy one tidy. |
| TraceFlushing.TrustIsEarned | app/decision_trace_store.py:533-655 | A flush acts only on a time within 300 s of its anchor's projection, or on a corroborated one after the whole archive, as it stood, was published under the old anchor. |
| TraceFlushing.FlushEarnsTrust | app/decision_trace_store.py:621-655 | Published history only grows, and a required attestation ends only with a corroborated proof and such a publication. |
| TraceRuns.AttestationEndsOnlyWithProof | app/decision_trace_store.py:621-655 | Over every run of one process published history only grows, and a required attestation ends only at a flush with corroboration by both sources and a published copy of the archive under the old anchor; until then no flush or download moves the anchor. |
| TraceRuns.RunDriftIsBounded | app/decision_trace_store.py:461-483 | Over every run of flushes and downloads without corroboration the anchor moves against the monotonic clock by at most 300 s for each. |
| TraceClock.DriftIsBounded | app/decision_trace_store.py:461-483 | After n accepted checks the wall reference is within 300 n seconds of the first anchor plus elapsed monotonic time. |
| TraceClock.ChecksNeverAttest | app/decision_trace_store.py:461-483 | Once attestation is required no run of checks clears it or moves the anchor. |
| TraceStoreObject.DecisionTraceStore.FlushRows | app/decision_trace_store.py:883-938 | The whole pass computes the specified archive and result. |
| TraceStoreObject.DecisionTraceStore.RecoverArchive | app/decision_trace_store.py:785-834 | The scan loop, with its early exits, computes the specified recovery. |
| TraceStoreObject.DecisionTraceStore.AppendRows | app/decision_trace_store.py:904-930 | Gathering and the loop over segments compute the specified append. |
| TraceStoreObject.DecisionTraceStore.PruneSegments | app/decision_trace_store.py:855-881 | The loop over indexed segments computes the specified pruning. |
| TraceStoreObject.DecisionTraceStore.ReplaceSegment | app/decision_trace_store.py:758-783 | A pinned segment is refused; otherwise the segment becomes the rows kept, discards are noted first, and the caller learns of it only after the last step. |
| TraceStoreObject.DecisionTraceStore.KeepRows | app/decision_trace_store.py:767-776 | The line loop computes the kept rows and their identities. |
| TraceStoreObject.DecisionTraceStore.CheckedTime | app/decision_trace_store.py:461-483 | The time, verdict, anchor and gap of one check. |
| TraceStoreObject.DecisionTraceStore.TryClockRecovery | app/decision_trace_store.py:621-655 | Probe interval, proof, publication, re-anchoring, its reversal when the status cannot be saved, and the repair. |
| TraceStoreObject.DecisionTraceStore.OpenDownload | app/decision_trace_store.py:940-984 | A view over the overlapping segments with one pin each, or a refusal that gives the reservation back. |
| TraceStoreObject.TraceDownload.ReadLine | app/decision_trace_store.py:169-193 | One step of the reader over the segment as it is now; past the last piece the view closes. |
| TraceStoreObject.TraceDownload.CloseView | app/decision_trace_store.py:195-218 | The first close releases pins and admission; a second changes nothing. |
| TracePinning.FlushOnlyExtendsPinned | app/decision_trace_store.py:758-761 | Whatever a flush does, a pinned segment is at most extended, and never past an unfinished line. |
| TraceViews.ViewsAreStable | app/decision_trace_store.py:169-218 | At every moment of every run a view whose ranges lie within its segments has sent a prefix of the rows captured at opening, and all of them at its end. |
| TraceViews.RangeIsStableWithinTheSegment | app/decision_trace_store.py:93-125 | The captured range of a segment that overlaps the view's window is immune to every later append of rows of that segment's hour if and only if it lies within the segment found at opening. |
| TraceStaleRange.StaleRangeSendsALaterRow | app/decision_trace_store.py:873-881 | A run from an empty disk in which a trim fails after reaching the disk, a download opens on the length indexed before it, and the view sends a row stored after it opened. |
| TraceViews.FailedTrimLeavesALongRange | app/decision_trace_store.py:873-881 | A trim that reaches the disk and then fails leaves the store ready with a length beyond the segment. |
| TraceViews.SettledViewIsInRange | app/decision_trace_store.py:940-979 | While no recovery is pending a view captures each of its segments whole. |
| TraceRuns.SettledDownloadsAreExact | app/decision_trace_store.py:169-218 | A download opened at any moment of any run while no recovery is pending sends exactly the rows that its segments held then, in order, whatever is flushed or trimmed while it is read. |
| TraceViews.SettledViewIsComplete | app/decision_trace_store.py:957-971 | While no recovery is pending a view captures every stored row from its cutoff up to the present. |
| TraceViews.TidyViewSendsEachRowOnce | app/decision_trace_store.py:957-971 | From a tidy archive a view sends its segments in order and no identity twice. |
| TraceViews.AdmissionsBalance | app/decision_trace_store.py:288-301 | At every moment of every run the pins of a segment count the open views of it, active downloads are the open views and unopened reservations, at most four, and cleanup waits for all of them. |
| TraceViews.RunKeepsTheArchive | app/decision_trace_store.py:221-264 | Over runs of flushes, downloads, stops and restarts the archive stays sound, and a tidy one never holds an identity twice or a garbled line. |
| TraceGaps.RecoveryNotesWhatItDrops | app/decision_trace_store.py:805-821 | However a recovery ends: if it changed any segment or put a repair off, a discarded record is noted. |
| TraceGaps.JudgingNotesTheClock | app/decision_trace_store.py:461-483 | A check that fails against an anchor leaves a clock discontinuity noted, whatever the flush does next. |
| TraceGaps.FutureRowsAreNoted | app/decision_trace_store.py:904-917 | A gap for a future row is noted exactly when a row lies more than 300 s ahead. |
| TraceGaps.RunKeepsGaps | app/decision_trace_store.py:308-312 | Within one process no flush, download or stop ever forgets a gap. |
| TraceCaptureSpec.LossIsNoticed | app/decision_trace_store.py:661-704 | At every capture under a trusted clock each row ever pushed is in the deque, or known durable, or the sticky overflow gap is set. |
| TraceConfirmation.FlushConfirms | app/decision_trace_store.py:849-853 | Whatever fails in a flush, an identity published as durable after it was published before, or was on disk when the flush began, or is on disk at its end. |
| TraceJourney.NoRowIsLostSilently | app/decision_trace_store.py:986-1006 | From any disk, over any run of pushes, passes, downloads and failures: at every pass under a trusted clock each row ever pushed is in the deque, or has been on disk under its own number, at its own time and in its own hour, or the sticky overflow gap is set. |
| TraceCaptureSpec.NumbersAreStable | app/decision_trace_store.py:684-702 | No row is ever renumbered, and numbers follow the order of pushes. |
| TraceCaptureSpec.CaptureHandsOverTheRest | app/decision_trace_store.py:684-704 | A capture hands over exactly the rows of the deque that are not yet durable, oldest first. |
| TraceCaptureObject.TraceObserver.CaptureRows | app/decision_trace_store.py:661-704 | The numbering and copying loop computes the specified observer and copies. |
| TraceCaptureObject.TraceObserver.FindLost | app/decision_trace_store.py:669-670 | Decides whether an observed row left the deque unconfirmed. |
| BlockIntegral.SummarizeBlock | app/state_store.py:417-464 | A block's energy is the integral of the step function that extends the first sample back to the block's start, and its price the last one quoted. |
| BlockIntegral.SegmentsIntegrate | app/state_store.py:431-452 | The weighted segments add up to that integral, and their durations telescope. |
| BlockIntegral.WeightsFillTheBlock | app/state_store.py:431-452 | The durations add up to 300 s exactly when no second sample lies before the block. |
| BlockIntegral.EnergyIsBounded | app/state_store.py:431-464 | A block's energy lies between the least and the greatest power times five minutes. |
| Resampler.ResampleCombinedRows | app/routers/api.py:800-831 | The two-pointer loop puts, at each grid time and key, the newest non-null value in stable time order over the whole input, with floor((end - start) / step) + 1 points. |
| Resampler.NewestIsUnique | app/routers/api.py:800-831 | The point-by-point specification determines the value. |
| Resampler.OrderIsStable | app/routers/api.py:806-810 | The sort is by time and keeps the input order of equal times. |
| PointMerge.MergePoints | app/routers/api.py:786-797 | The merge holds each time once, in order, with the item that wins it. |

## Left out

- The control loop in app/optimizer.py, settlement, Evening Boost and Morning Dump policy, HTTP, WebSocket, the Home Assistant client and the user interface: outside the stateful protocols modelled here.
- app/earnings.py, app/forecast_utils.py, configuration, tickets, presets and audit rows: would only add easy members.
- JSON encoding, canonical payload comparison and SHA-256 digests are equality of values; SQLite transactions are atomic steps with a failure before or after the commit.
- Floating point: energies and prices are reals, a missing or non-finite number is an absent value, and the rounding of summaries is not modelled.
- The import ledger's times carry a day, seconds and whether they have an offset; the comparison of a naive time and the parsing of a malformed checkpoint date are not modelled further.
- In deferred mode the database thread runs one accounting job as one step, because nothing else touches the store; replies reach the ledger in completion order because app/optimizer.py:2642-2668 keeps one job outstanding. `SummaryCache.LateRepliesNeverRestoreTrust` and `ExactlyOnce.ExactlyOnceDelivery` do not rely on that order.
- An import tail that crosses midnight is followed as the code does it (a proven entry with zero energy), so energy claims are per day.
- Timeouts of waiting callers (`StorageWorker.call`, `wait`) and event-loop cancellation: a caller that gives up is a cancelled future.
- The guard's diagnostics and the assertions that rule out absent anchors inside a running proof.
- The archive's lock file, temporary files, symbolic-link checks, byte-size limits and the loading of the status file: a restarted store begins with any loaded clock, and an I/O error anywhere in a step is a failure of that step.
- Power loss that undoes an acknowledged fsync, and any other writer of the archive directory.
- TraceViews.ViewsAreStable: carries the condition that the captured ranges lie within the segments, because without it the property is false (`TraceStaleRange.StaleRangeSendsALaterRow`); ranges and positions count lines, so a range that ends inside a later line, where the code discards the fragment and notes a gap, ends at a line here.
- Pinned reads go through the segment's name; where the platform keeps an unlinked file readable the code is safer than the model.
- The subprocess that corroborates UTC is an oracle that yields a proof or nothing; its per-source tolerances are not modelled.
- CompleteDay.CompleteDayIsVouched: a day that an earlier session entered and left known, other than that session's last one, rests on what the store says of it; the earlier session's own readings are not part of this session's run.
- TraceJourney.NoRowIsLostSilently: captures and flushes alternate, because app/decision_trace_store.py:996-999 awaits each flush before the next capture; a pass refused by busy workers captures without a flush.
- The `possible_gap` flag written into each row and the historical flag rebuilt from it.
- TraceFlushing.FlushActs: the stored row of a due identity is stated where an identity names one row in the archive and the flush, which `TraceCaptureSpec.NumbersAreStable` gives within a session.
- The daily summary's sums over blocks, its parsing of block keys, and samples whose timestamp does not parse.
- The block loop updates both sides in one pass; the model runs the same loop once per side.

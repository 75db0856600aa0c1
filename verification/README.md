# Verified model of iperf3-lib's schedulers, protocols and search

iperf3-lib wraps libiperf. Around the foreign calls it has two schedulers that own disposable
workers, a two-process frame protocol, an adaptive search and a server lock that must outlive its worker.
This project models those parts in Dafny and proves what they promise over whole runs. Nothing foreign is
modelled: a native run is an arbitrary finite sequence of callbacks and an arbitrary outcome.

How the parts fit together:

- **Concurrent scheduler.** `ConcurrentTrials.Run` is the scheduler, a class with the source's fields
  against an arbitrary `World`: clock readings that never decrease (ties allowed), completions, outcomes,
  cancellations. `ConcurrentReports` is the independent checker, each pass proved to decide a declarative
  predicate; `Reservations` is its sweep line. `ConcurrentLedger` holds the invariant between them.
  `SequentialTrials` and `SequentialReports` are the same theorem with pauses and a duration sum;
  `OwnedTrials` is what the two schedulers share, above all what causes a stop can have.
- **Worker protocol.** `JsonFrames` and `FrameDecoding` are the frame layer, `JsonReading` a strict reader that
  gets back what they write. `WorkerMessages.Responses` is the parent's phase machine, `AcceptedSessions` says from
  the frames alone which sessions it accepts, `FrameQueues` the two bounded queues, `WorkerSystem` the interleaved system of
  worker, queue, pipe, reader, inbox and consumer, and `WorkerComposition` its invariants. `EventCapture` is
  the bounded capture whose receipt the parent cross-checks; `Reconstruction` says what the kept evidence means, and
  `NativeStream` reads that off the payloads' own members.
- **Adaptive search.** `AdaptiveSearch` is the deterministic decision, `AdaptiveHistory` the properties of
  every conforming history, `AdaptiveEvidence` and `AdaptiveChoice` what statuses and decisions mean,
  `AdaptiveExecution` the loops and the driver.
- **Ownership and delivery.** `ProcessOwnership` interleaves cancellation, process owner, reaping and the
  server lock; `EventStream` is the bounded delivery to one asynchronous reader.
- **One decision, two implementations.** `Fingerprints` derives a result's fingerprint twice, as the live analysis
  and as the frozen archive validator do; `Compatibility` proves both decisions against one specification and each
  other; `Assessments` builds and validates whole reports, with the verdict of `Verdicts`.

Two promises hold only under a condition, proved exactly:

- A frame of a conforming worker is refused if and only if a server worker gives up waiting for its next
  command after the parent has authorised the next run (`WorkerComposition.EveryFrameIsAccepted`,
  with `CrossingBreaksTheSession` as the concrete case). Its error report names the run it knows, the parent
  already expects the next.
- The archive agrees with the live analysis on every result the live analysis reads. It reads more if and only if a
  protocol or method is unknown, a setting's state is unknown, or a verified setting has no value
  (`Fingerprints.ArchiveAcceptsMore`, with `Compatibility.ArchiveReadsUnknownProtocol` as a concrete case).

On the artifacts that reports retain, live and archived summaries agree (`Assessments.CanonicalAgrees`).
`summary_throughput` alone also measures a result without execution metadata (`Assessments.BareResultsDiffer`); no
report ever retains one.

`dafny verify dfyconfig.toml` checks the whole project.

## Model

| member | source | states |
|---|---|---|
| `Reservations.Boundaries` | src/iperf3_lib/concurrent_reports.py:350-361 | The sorted boundary list holds exactly one admission, and one release where there is one, for every reservation that lasts, and ranks a release before an admission of the same instant |
| `Reservations.LimitsAreMonotone` | src/iperf3_lib/concurrent_reports.py:360-379 | Fewer occupied reservations never break the worker count, rate cap or key exclusivity |
| `Reservations.Sweep` | src/iperf3_lib/concurrent_reports.py:350-379 | Accepts if and only if at every instant of real time the half-open occupied intervals (unreleased ones unbounded, confirmed zero-length ones empty) respect the worker count, the summed rate cap and pairwise disjoint keys |
| `Intent.AggregateIsConserved` | src/iperf3_lib/intent.py:66-114 | An aggregate intent resolves if and only if it gives every stream something, and what is allocated plus what is unused is the target |
| `Intent.RatesMean` | src/iperf3_lib/intent.py:66-114 | What rate every kind of intent gives a stream, and that totals count all streams and both directions, payload all seconds |
| `ConcurrentPlan.PrepareConcurrentPlan` | src/iperf3_lib/concurrent_execution.py:35-95 | A plan is prepared if and only if every trial can be admitted alone; the derived keys and targets are those of its configurations |
| `ConcurrentPlan.HostsAgree` | src/iperf3_lib/concurrent_execution.py:80-84 | Two host names are one endpoint if and only if they differ only in letter case and trailing dots |
| `ConcurrentPlan.SharedKeysMean` | src/iperf3_lib/concurrent_execution.py:80-88 | Two trials exclude each other if and only if they share host and port, or a resource named for both their cells |
| `ConcurrentPlan.PriorInCell` | src/iperf3_lib/concurrent_trials.py:63-68 | The latest earlier trial of the same cell: none of the cell lies between |
| `ConcurrentTrials.PredecessorMap` | src/iperf3_lib/concurrent_trials.py:63-68 | The one-pass map of the constructor agrees with that definition for every trial |
| `ConcurrentReports.ValidateOutcome` | src/iperf3_lib/concurrent_reports.py:128-231 | Decides exactly the declarative rules for one record: states, times, evidence, interruption causes |
| `ConcurrentReports.FirstFailure` | src/iperf3_lib/concurrent_reports.py:288-297 | The earliest finish of a failed trial, or none if none failed |
| `ConcurrentReports.ValidateStops` | src/iperf3_lib/concurrent_reports.py:234-317 | Decides exactly the pairing and precedence of soft and hard stops against the recorded failures and limits |
| `ConcurrentReports.AdmittedInOrder` | src/iperf3_lib/concurrent_reports.py:321-326 | Sorting by index finds the admission order if and only if the indices are 1, 2, 3, ... without gap or repetition |
| `ConcurrentReports.CheckMonotone` | src/iperf3_lib/concurrent_reports.py:327-331 | The pass over neighbours decides monotonicity of all pairs |
| `ConcurrentReports.CheckPredecessors` | src/iperf3_lib/concurrent_reports.py:332-349 | The one-map pass decides that every same-cell predecessor released before its successor was admitted |
| `ConcurrentReports.ValidateReservations` | src/iperf3_lib/concurrent_reports.py:320-379 | Decides order, predecessors and, through the sweep, that no instant is over-committed |
| `ConcurrentReports.ValidateHistory` | src/iperf3_lib/concurrent_reports.py:382-405 | The whole checker decides exactly the predicate the scheduler is proved against |
| `ConcurrentLedger.Admit` | src/iperf3_lib/concurrent_trials.py:122-154 | Admitting a trial that passes the tests keeps every limit at every instant, the numbering, the clock order and the cell order |
| `ConcurrentLedger.Consume` | src/iperf3_lib/concurrent_trials.py:185-263 | Recording and releasing a settled child keeps the same invariant |
| `ConcurrentLedger.SoftStop` | src/iperf3_lib/concurrent_trials.py:73-75 | A soft stop freezes admission at its instant and later ones change nothing |
| `ConcurrentLedger.HardStop` | src/iperf3_lib/concurrent_trials.py:77-83 | A hard stop takes whichever of the two roles is vacant and keeps the invariant |
| `ConcurrentLedger.EvidenceRestored` | src/iperf3_lib/concurrent_trials.py:185-256 | Once a child is recorded, whatever stop its outcome caused is explained by some record |
| `ConcurrentLedger.LowestIsAdmissible` | src/iperf3_lib/concurrent_trials.py:156-183 | With nothing live and no stop, the lowest pending trial passes every admission test |
| `ConcurrentLedger.StaysBarred` | src/iperf3_lib/concurrent_trials.py:156-183 | What bars a pending trial still bars it while later trials are admitted in the same scan |
| `ConcurrentLedger.FinishedStops` | src/iperf3_lib/concurrent_reports.py:234-317 | A finished run satisfies the stop rules |
| `ConcurrentLedger.FinishedOrder` | src/iperf3_lib/concurrent_reports.py:321-326 | Its records carry the indices 1, 2, 3, ... in admission order |
| `ConcurrentLedger.FinishedCells` | src/iperf3_lib/concurrent_reports.py:332-349 | Its same-cell predecessors released in time |
| `ConcurrentLedger.FinishedReservations` | src/iperf3_lib/concurrent_reports.py:350-379 | Its recorded intervals never over-commit any instant, ties included |
| `ConcurrentLedger.FinishedIsAccepted` | src/iperf3_lib/concurrent_reports.py:382-405 | Every finished ledger, read as a report, is accepted by the whole independent checker |
| `ConcurrentTrials.SortedByAdmission` | src/iperf3_lib/concurrent_trials.py:258-264 | Sorting live children by admission index keeps them all, in admission order |
| `ConcurrentTrials.Run.Stop` | src/iperf3_lib/concurrent_trials.py:73-75 | Only the first reason is kept, with the offset at which it was declared |
| `ConcurrentTrials.Run.Terminate` | src/iperf3_lib/concurrent_trials.py:77-83 | Both roles are filled from one clock reading if vacant and never change again |
| `ConcurrentTrials.Run.CheckLimits` | src/iperf3_lib/concurrent_trials.py:85-96 | The deadline and the admission limit take effect exactly when their readings reach them, the deadline first |
| `ConcurrentTrials.Run.CancelActive` | src/iperf3_lib/concurrent_trials.py:111-120 | Exactly the live children that have not settled are cancelled, each once |
| `ConcurrentTrials.Run.Reserve` | src/iperf3_lib/concurrent_trials.py:138-152 | The child is entered under the next index at the offset just read |
| `ConcurrentTrials.Run.Admit` | src/iperf3_lib/concurrent_trials.py:122-154 | An eager or failed task is consumed at once if and only if it has settled and no cancellation is waiting; otherwise it is live |
| `ConcurrentTrials.Run.Yield` | src/iperf3_lib/concurrent_trials.py:266-272 | At the start of a turn a waiting cancellation, a reached deadline and a reached admission limit take effect |
| `ConcurrentTrials.Run.Held` | src/iperf3_lib/concurrent_trials.py:156-158 | The keys and the summed target that the live children reserve |
| `ConcurrentTrials.Run.Consider` | src/iperf3_lib/concurrent_trials.py:159-183 | One pending trial is admitted, or some test bars it, or the scan ends for a stop, a cancellation or the worker ceiling |
| `ConcurrentTrials.Run.AdmitReady` | src/iperf3_lib/concurrent_trials.py:156-183 | One pass admits at least one trial when nothing is live, and leaves no pending trial behind that could still be admitted |
| `ConcurrentTrials.Run.Retrieve` | src/iperf3_lib/concurrent_trials.py:185-224 | Each outcome calls for exactly one hard stop or none; the first stop in force names every interrupted child |
| `ConcurrentTrials.Run.ConsumeChild` | src/iperf3_lib/concurrent_trials.py:185-256 | One faithful record is written, the reservation dropped, and a failure stops admission under stop-on-error |
| `ConcurrentTrials.Run.ConsumeDone` | src/iperf3_lib/concurrent_trials.py:258-264 | Exactly the children found settled are recorded, in admission order, before anything else is admitted |
| `ConcurrentTrials.Run.Turn` | src/iperf3_lib/concurrent_trials.py:266-291 | A turn ends the loop only when nothing is live and nothing may start; otherwise, once children settle, it shrinks the work left |
| `ConcurrentTrials.Run.Settle` | src/iperf3_lib/concurrent_trials.py:274-291 | Before the loop waits under a hard stop every live child has settled or been asked to stop; no child is asked before a hard stop |
| `ConcurrentTrials.Run.Drain` | src/iperf3_lib/concurrent_trials.py:266-291 | The loop ends, whatever the clock, completions and cancellations do |
| `ConcurrentTrials.Run.Execute` | src/iperf3_lib/concurrent_trials.py:266-322 | Every run returns one record per declared trial, faithful to its outcome, in a history the independent checker accepts; every stop has a cause: a request, a reading at its limit, or the outcome of a recorded child; a request or limit already there at the start takes effect; with no cause at all every trial completes and the history is returned; the exception raised matches the history |
| `PartialEvents.RetainedIsBoundedPrefix` | src/iperf3_lib/async_trials.py:45-86 | What a log keeps is the longest bounded, strictly increasing prefix of what was delivered |
| `PartialEvents.EventLog.Call` | src/iperf3_lib/async_trials.py:55-86 | The mutable log computes that prefix one delivery at a time |
| `PartialEvents.Collect` | src/iperf3_lib/async_trials.py:45-86 | Feeding a whole trial through the log returns the prefix and the exact count delivered |
| `PartialEvents.CheckEvidence` | src/iperf3_lib/concurrent_reports.py:92-125 | The report check decides bounds, order and observed = retained + dropped |
| `PartialEvents.LogIsAccepted` | src/iperf3_lib/plan_reports.py:95-130 | Whatever a log retained is evidence every report accepts |
| `SequentialReports.ValidateRecord` | src/iperf3_lib/plan_reports.py:151-225 | Decides exactly the rules for one sequential record |
| `SequentialReports.Scan` | src/iperf3_lib/plan_reports.py:149-234 | The single pass with its running flags and sum decides that nothing executes after a halt |
| `SequentialReports.ValidateHistory` | src/iperf3_lib/plan_reports.py:133-245 | The whole sequential checker decides its declarative predicate, the duration sum included |
| `SequentialTrials.ChildKeepsInv` | src/iperf3_lib/async_trials.py:156-260 | Whatever a child raises, its record and the stop it causes keep every prefix acceptable |
| `SequentialTrials.FinishedIsAccepted` | src/iperf3_lib/plan_reports.py:133-245 | Finished records, with trial time plus pauses within the elapsed time, are accepted by the checker |
| `SequentialTrials.Run.CheckLimits` | src/iperf3_lib/async_trials.py:111-119 | The deadline and the admission limit take effect exactly when their readings reach them |
| `SequentialTrials.Run.BeforeTrial` | src/iperf3_lib/async_trials.py:121-139 | Which of cancellation, limit or pause precedes a trial, and the exact pause time counted, interrupted pauses included |
| `SequentialTrials.Run.Supervise` | src/iperf3_lib/async_trials.py:141-192 | The child has settled before it is read; a timeout is declared only past the deadline and a cancellation only if one came |
| `OwnedTrials.ChildGrounds` | src/iperf3_lib/concurrent_trials.py:185-256 | The stop a child calls for has its cause in that outcome, and stop-on-error in an outcome that is no success |
| `OwnedTrials.UndisturbedGoesOn` | src/iperf3_lib/concurrent_trials.py:266-322 | If nothing asked, reached a limit or failed, nothing that has a cause stopped the run |
| `SequentialTrials.Run.Retrieve` | src/iperf3_lib/async_trials.py:200-236 | The first stop is kept and every outcome is read under it |
| `SequentialTrials.Run.Read` | src/iperf3_lib/async_trials.py:194-257 | The record of a settled child reads its outcome under the stop in force and takes the time between two readings |
| `SequentialTrials.Run.Trial` | src/iperf3_lib/async_trials.py:156-260 | Exactly one record is appended, and a failure stops the plan under stop-on-error |
| `SequentialTrials.Run.Turn` | src/iperf3_lib/async_trials.py:262-274 | One turn appends one record: the trial ran with nothing to stop it before, or is not run and names what did |
| `SequentialTrials.Run.Execute` | src/iperf3_lib/async_trials.py:262-292 | Every run returns one record per declared trial in a history the independent checker accepts; trials are considered in turn, each runs if and only if no cancellation or limit precedes it, records the time between two readings, and the pauses counted are exactly those made; every stop has a cause and with none every trial completes; the exception raised matches |
| `AdaptiveSearch.LastRefinable` | src/iperf3_lib/adaptive.py:511-545 | The topmost splittable interval of differing outcomes, none above it |
| `AdaptiveSearch.Promising` | src/iperf3_lib/adaptive.py:498-509 | The highest provisional rate above every eligible one |
| `AdaptiveHistory.ChosenFits` | src/iperf3_lib/adaptive.py:248-287 | Whatever batch is chosen fits trials, active time and payload on top of everything reserved before |
| `AdaptiveHistory.HalvedIsCeil` | src/iperf3_lib/adaptive.py:540-545 | Rounding halves up m times is one division by 2^m rounded up |
| `AdaptiveHistory.RefineIsNew` | src/iperf3_lib/adaptive.py:515-545 | A refined rate is new, strictly between two tested neighbours, and splits them evenly |
| `AdaptiveHistory.SearchResolves` | src/iperf3_lib/adaptive.py:483-553 | In every history neighbours of larger depth m are at most ceil(G / 2^m) apart, G the largest initial gap |
| `AdaptiveHistory.EndIsResolved` | src/iperf3_lib/adaptive.py:483-553 | A search ended by depth or integer exhaustion leaves neighbours whose statuses differ (eligible and provisional counting as one) at most max(1, ceil(G / 2^depth)) apart |
| `AdaptiveHistory.NothingProvisionalAbove` | src/iperf3_lib/adaptive.py:483-553 | A search that hit neither a stop nor a budget leaves no provisional rate above the highest eligible one |
| `AdaptiveHistory.TestedWithinLimits` | src/iperf3_lib/adaptive.py:174-219 | Every tested rate lies within the offered-rate limits |
| `AdaptiveHistory.SearchIsAccounted` | src/iperf3_lib/adaptive.py:483-553 | Distinct rates never exceed their limit and every batch is the grid, a new rate or one of its confirmations |
| `AdaptiveHistory.SearchIsFinite` | src/iperf3_lib/adaptive_execution.py:40-51 | No history is longer than 1 + (distinct limit - grid) + distinct limit * confirmations |
| `AdaptiveHistory.BudgetsHold` | src/iperf3_lib/adaptive.py:248-287 | Cumulative trials, active seconds and payload, rounded up once over the whole search, stay within their budgets |
| `AdaptiveHistory.EveryRateIsMeasured` | src/iperf3_lib/adaptive.py:369-440 | A rate has exactly repetitions measured observations per batch that tested it, and batches = admission + confirmations |
| `AdaptiveHistory.EligibleIsEarned` | src/iperf3_lib/adaptive.py:443-480 | An eligible rate was in exactly 1 + confirmations batches, with that many times the repetitions of measured observations, all valid and acceptable |
| `AdaptiveEvidence.ObservationMeans` | src/iperf3_lib/adaptive.py:369-440 | An observation is valid if and only if its trial completed as requested with both rates known, the sender at its share and sensible counts; acceptable if moreover 100 x lost is within limit x packets |
| `AdaptiveEvidence.StatusMeans` | src/iperf3_lib/adaptive.py:443-480 | From the recorded evidence alone: rejected if and only if some measured trial could be trusted and lost too much; eligible if and only if all could be trusted, lost at most the limit, and the confirmations are there; provisional while they are missing; inconclusive otherwise |
| `AdaptiveChoice.ReservationMeans` | src/iperf3_lib/adaptive.py:248-287 | A batch is reserved if and only if it fits trials, active time and payload on top of all before, and a refusal names a budget it would break |
| `AdaptiveChoice.DecisionMeans` | src/iperf3_lib/adaptive.py:483-553 | A rate is confirmed, an interval split, or the search stopped only on the grounds the reason names: the highest provisional rate above every eligible one; else the topmost differing interval below the depth limit; else what rules both out |
| `AdaptiveChoice.DepthMeans` | src/iperf3_lib/adaptive.py:492-497 | A rate enters the search once, and its depth stays that of the batch which introduced it |
| `AdaptiveHistory.SettledIsNeverRetested` | src/iperf3_lib/adaptive.py:483-553 | Once rejected or inconclusive, a rate is never tested again and keeps its status |
| `AdaptiveExecution.RunPlan` | src/iperf3_lib/trials.py:315-367 | Trials up to the first fatal failure ran, the rest are recorded as not run, and the recorded pauses are no shorter than declared |
| `AdaptiveExecution.ValidateHistory` | src/iperf3_lib/adaptive.py:556-593 | Accepts exactly the histories whose every batch is the deterministic decision of its prefix and whose pauses and cooldowns are long enough |
| `AdaptiveExecution.NextBatch` | src/iperf3_lib/adaptive.py:601-611 | A decision is given if and only if the search is admitted and its history conforms |
| `AdaptiveExecution.RateSummaries` | src/iperf3_lib/adaptive.py:443-480 | The dictionary pass yields one summary per tested rate, increasing, equal to the definition |
| `AdaptiveExecution.Summarize` | src/iperf3_lib/adaptive.py:614-637 | Acceptable rates are exactly the eligible ones, the highest is their maximum, the verdict and censoring flags mean what they say, and every status what the evidence of its trials says |
| `AdaptiveExecution.RunAdaptiveUdp` | src/iperf3_lib/adaptive_execution.py:20-51 | The driver loop ends within the bound, with a conforming, sufficiently rested history whose next decision is to stop and in which every status is what the evidence of its trials says |
| `JsonFrames.SizeCheck.Visit` | src/iperf3_lib/_ipc.py:44-96 | Refuses exactly the trees that are not strict JSON or whose accumulated minimum exceeds the limit |
| `JsonFrames.MinimumIsALowerBound` | src/iperf3_lib/_ipc.py:44-96 | The accumulated minimum, a quarter of the bit length for integers included, never exceeds the real encoding |
| `JsonFrames.PiecesAreWhole` | src/iperf3_lib/_ipc.py:99-125 | Escaping a string in 4096-character pieces yields the bytes of escaping it whole (section 7 of RFC 8259) |
| `JsonReading.Utf8Reads` | src/iperf3_lib/_ipc.py:99-107 | A strict UTF-8 reader gets every code point back (section 3 of RFC 3629) |
| `JsonReading.TextReads` | src/iperf3_lib/_ipc.py:99-107 | A strict string reader gets every string back, up to its closing quotation mark (section 7 of RFC 8259) |
| `JsonReading.ValueReads` | src/iperf3_lib/_ipc.py:99-125 | A strict JSON reader gets every value back whatever follows, floats by their text (RFC 8259) |
| `JsonReading.WrittenAlike` | src/iperf3_lib/_ipc.py:99-125 | Two values are written alike only if their texts tell the same |
| `JsonReading.SentIsReceived` | src/iperf3_lib/_ipc.py:128-237 | Messages sent a frame each are a concatenation that the decoder reads as exactly those messages |
| `JsonFrames.ChunksAreEncoding` | src/iperf3_lib/_ipc.py:99-125 | The generated chunks, joined, are the reference encoding |
| `JsonFrames.EncodeFrame` | src/iperf3_lib/_ipc.py:128-145 | A frame is produced if and only if the object is strict and its real encoding fits; the pre-check refuses nothing more |
| `FrameDecoding.ParseSplits` | src/iperf3_lib/_ipc.py:200-228 | Parsing may stop anywhere and resume without trace |
| `FrameDecoding.CleanIffConcatenation` | src/iperf3_lib/_ipc.py:186-237 | A clean parse and a concatenation of frames are the same thing |
| `FrameDecoding.FrameDecoder.FeedSized` | src/iperf3_lib/_ipc.py:200-228 | Feeding bytes advances the parse of everything seen by exactly those bytes, with one bounded unfinished frame retained |
| `FrameDecoding.FrameDecoder.Eof` | src/iperf3_lib/_ipc.py:230-237 | End of stream is clean if and only if nothing failed and nothing is pending |
| `FrameDecoding.DecodeStream` | src/iperf3_lib/_ipc.py:186-237 | For any cutting into reads, success, messages and wire sizes depend on the joined bytes alone |
| `FrameDecoding.ChunkingIsInvisible` | src/iperf3_lib/_ipc.py:186-237 | A byte stream is a concatenation of at most one list of frames |
| `FrameDecoding.ReadFrame` | src/iperf3_lib/_ipc.py:240-259 | Reads one frame and not a byte more, however short the reads are |
| `FrameDecoding.ReadAll` | src/iperf3_lib/_ipc.py:240-259 | Repeated single reads agree with the incremental decoder |
| `FrameQueues.OutgoingQueue.Put` | src/iperf3_lib/_ipc.py:376-406 | Drops an event exactly when its limits are reached, refuses a control frame only beyond its own allowance |
| `FrameQueues.OutgoingQueue.Get` | src/iperf3_lib/_ipc.py:408-428 | First in, first out, giving count and bytes back |
| `WorkerMessages.Responses.Accept` | src/iperf3_lib/_execution.py:46-164 | The mutable phase machine accepts exactly by the transition specification and takes its step |
| `WorkerMessages.Responses.AcceptLive` | src/iperf3_lib/_execution.py:81-104 | Per-run event order, gap and counter rules |
| `WorkerMessages.Responses.CheckReport` | src/iperf3_lib/_execution.py:105-144 | A report must close its run: counters, gaps and receipt agree with what was seen |
| `WorkerMessages.Responses.ContinueRun` | src/iperf3_lib/_execution.py:166-181 | A run is authorised or declined only between runs |
| `AcceptedSessions.AcceptsMeans` | src/iperf3_lib/_execution.py:46-164 | A frame is taken if and only if the transcript allows it: next number, own identity, own run; readiness once and first; events and offsets rising within the run, each gap once and last; counters and gaps of a report equal those of the frames; one failure; the terminal receipt last |
| `AcceptedSessions.PlayMeans` | src/iperf3_lib/_execution.py:46-181 | A whole session of frames and continuations is taken if and only if every entry may follow those before it |
| `AcceptedSessions.Listen` | src/iperf3_lib/_execution.py:46-181 | The class, fed a transcript, accepts it if and only if it is sound |
| `AcceptedSessions.AcceptAllMeans` | src/iperf3_lib/_execution.py:46-164 | Frames accepted one after the other, after any session so far, are sound, and the other way round |
| `AcceptedSessions.FramesAreNumbered` | src/iperf3_lib/_ipc.py:347-357 | The frames of an accepted session carry the numbers 1, 2, 3, ... and its identity |
| `AcceptedSessions.ReadyComesFirst` | src/iperf3_lib/_execution.py:56-72 | An accepted session begins with its one readiness receipt, or with a failure before it |
| `AcceptedSessions.EndsOnce` | src/iperf3_lib/_execution.py:146-164 | Nothing follows the terminal receipt, and there is at most one failure |
| `AcceptedSessions.EveryRunIsReported` | src/iperf3_lib/_execution.py:108-181 | Reports number the further runs asked for, plus the current run once reported |
| `FrameQueues.Inbox.Put` | src/iperf3_lib/_execution.py:325-356 | Only events are dropped; each report takes the losses counted since the last one with it |
| `FrameQueues.Inbox.Get` | src/iperf3_lib/_execution.py:364-383 | First in, first out |
| `WorkerComposition.StepKeepsInv` | src/iperf3_lib/_worker.py:148-280 | Every action of worker, writer, reader and consumer keeps the session in order, sparse and balanced |
| `WorkerComposition.RunsKeepInv` | src/iperf3_lib/_execution.py:491-880 | So does every interleaving of any length |
| `WorkerComposition.OfferIsAccepted` | src/iperf3_lib/_execution.py:70-104 | Whatever a conforming capture offers is accepted, delivered or dropped, because drops consume no sequence number |
| `WorkerComposition.ReportIsAccepted` | src/iperf3_lib/_execution.py:105-144 | The report that closes a capture is accepted |
| `WorkerComposition.EveryFrameIsAccepted` | src/iperf3_lib/_execution.py:46-181 | In every reachable state the next frame is accepted if and only if the worker has not given up waiting for a run the parent authorised |
| `WorkerComposition.UninterruptedIsNeverBroken` | src/iperf3_lib/_worker.py:148-280 | Client sessions, and server sessions whose worker never gives up waiting, are accepted to the end |
| `WorkerComposition.CrossedIsRefused` | src/iperf3_lib/_execution.py:46-54 | In that one case the next frame is refused |
| `WorkerComposition.CrossingBreaksTheSession` | src/iperf3_lib/_worker.py:225-277 | A concrete session in which it happens |
| `WorkerComposition.DeclineIsHarmless` | src/iperf3_lib/_execution.py:166-181 | Declining the next run never invalidates a frame already in flight |
| `WorkerComposition.ControlAllowanceHolds` | src/iperf3_lib/_ipc.py:24-25 | In every interleaving both queues stay within four control frames and the reserved bytes |
| `WorkerComposition.HeadClosesRun` | src/iperf3_lib/_execution.py:726-791 | When a report is consumed, every live event of its run is in its account |
| `WorkerComposition.LiveEventsAreConserved` | src/iperf3_lib/_execution.py:726-791 | Emitted = dropped by the worker + by the parent + in projection + handed to the sink + skipped after a failed callback, for every run of every session; without a failed callback the gap events handed over announce all losses and add up to what was emitted |
| `WorkerComposition.EveryLossIsAnnouncedOnce` | src/iperf3_lib/_execution.py:764-785 | Each stage with a loss is announced exactly once, with its own count |
| `WorkerComposition.AnnouncementsAreNumbered` | src/iperf3_lib/_execution.py:764-785 | Gap events continue the delivery sequence without a hole and never announce nothing |
| `ControlFrames.FailureFrameIsSmall` | src/iperf3_lib/_worker.py:266-273 | An error receipt with truncated text fits its reservation, escapes included |
| `ControlFrames.TerminalFrameIsSmall` | src/iperf3_lib/_worker.py:274-277 | So does the terminal receipt |
| `EventCapture.LiveBodyIsFine` | src/iperf3_lib/_event_capture.py:363-430 | Whatever a payload turns out to be, its live event is well formed |
| `EventCapture.ProjectionIsCharged` | src/iperf3_lib/_event_capture.py:460-496 | A projection grows by less than the charge made for it, replacements and separators included |
| `EventCapture.EventIsCovered` | src/iperf3_lib/_event_capture.py:460-496 | Retaining an event keeps the serialized evidence within what was charged |
| `EventCapture.DocumentIsCovered` | src/iperf3_lib/_event_capture.py:478-484 | A complete document that replaces everything is charged in full |
| `EventCapture.Capture.Call` | src/iperf3_lib/_event_capture.py:197-229 | A callback is counted once; its copy is queued exactly when there is room, else lost and the loss dated |
| `EventCapture.Capture.ParseOne` | src/iperf3_lib/_event_capture.py:363-496 | Parsing the oldest copy changes the retained evidence by the decision for that copy alone, offers its events once and keeps all bounds |
| `EventCapture.Capture.Retain` | src/iperf3_lib/_event_capture.py:458-496 | Which events are kept, refused for size or replace everything, with the exact charge |
| `EventCapture.Capture.Finish` | src/iperf3_lib/_event_capture.py:328-345 | A loss after the last document uncovers it, and each nonzero loss is announced once with its final count |
| `EventCapture.Capture.Close` | src/iperf3_lib/_event_capture.py:231-243 | Nothing is published before every copy is parsed |
| `EventCapture.Capture.Recover` | src/iperf3_lib/_event_capture.py:275-293 | An independent getter copy replaces the evidence exactly when it is a complete document within the limit |
| `EventCapture.Capture.SettledMeans` | src/iperf3_lib/_event_capture.py:248-273 | Callbacks = copied + dropped, live emissions = copies + one per nonzero gap, evidence within the limit, receipt acceptable |
| `EventCapture.Capture.MetadataCloses` | src/iperf3_lib/_event_capture.py:248-273 | The final metadata always satisfies the parent validator |
| `EventCapture.RunCapture` | src/iperf3_lib/_event_capture.py:197-345 | For any interleaving of callbacks and parsing all of this holds at the end, and the evidence, the native error and everything offered for delivery are functions of the copies parsed |
| `Reconstruction.EventsAreAllKept` | src/iperf3_lib/_event_capture.py:458-496 | Without loss and without a document, the envelopes are the whole stream and the projection holds every interval in order and the latest of every other event |
| `Reconstruction.LastDocumentStands` | src/iperf3_lib/_event_capture.py:440-484 | Without loss, the last complete document is the result and only advisory events follow it |
| `Reconstruction.FailsOnlyAfterADocument` | src/iperf3_lib/_event_capture.py:346-361 | The parser can fail only after a complete document has been kept |
| `Reconstruction.CompleteReceiptIsHonest` | src/iperf3_lib/_event_capture.py:262-264 | A receipt that claims a complete reconstruction speaks for every payload the callbacks delivered |
| `NativeStream.CompleteReceiptReads` | src/iperf3_lib/_event_capture.py:458-496 | Read from the payloads' own members: without a document the result holds, under start, end and the two server outputs, the data of the latest envelope of that very name, the text of the latest error, and every interval in order; otherwise it is the last document |
| `NativeStream.AnnouncementMeans` | src/iperf3_lib/_event_capture.py:370-431 | Which live event a payload is announced as, with what data, from its own event and data members |
| `NativeStream.LivesMean` | src/iperf3_lib/_event_capture.py:306-326 | With live events on, one is offered for every copy parsed, in order, of the kind its own members name |
| `NativeStream.EventsMean` | src/iperf3_lib/_event_capture.py:386-397 | With legacy events on, one is offered for every envelope, in order, numbered from one |
| `NativeStream.ErrorReads` | src/iperf3_lib/_event_capture.py:434-446 | What error a payload reports: the data of an error envelope or the error member of a document, as text of at most 4096 characters |
| `NativeStream.FirstErrorMeans` | src/iperf3_lib/_event_capture.py:434-446 | The native error is the first one reported |
| `EventStream.Stream.Put` | src/iperf3_lib/_event_stream.py:198-217 | Kept exactly when both bounds allow, else counted as dropped; no wake-up is lost |
| `EventStream.Stream.Next` | src/iperf3_lib/_event_stream.py:110-151 | A reader waits only when nothing is owed, and every delivery reduces what is owed |
| `EventStream.Stream.Settle` | src/iperf3_lib/_event_stream.py:225-242 | One terminal, fixed at the first settlement with the final loss count |
| `EventStream.Stream.DrainedIsComplete` | src/iperf3_lib/_event_stream.py:110-242 | A drained stream ends in exactly one terminal; deliveries plus announced losses equal puts |
| `EventStream.PlayAndDrain` | src/iperf3_lib/_event_stream.py:110-242 | The same for every interleaving of puts, wake-ups, settlement and reads |
| `ProcessOwnership.FirstCauseWins` | src/iperf3_lib/_cancellation.py:51-71 | In every extension of a run the first cause stays, a completed operation never gets one, and no release is undone |
| `ProcessOwnership.CauseIsKept` | src/iperf3_lib/_cancellation.py:51-71 | One step keeps a cause, a completion and the releases made, and releases only a held lock of a process confirmed gone |
| `ProcessOwnership.StepKeepsInv` | src/iperf3_lib/_cancellation.py:37-203 | Every atomic step of caller, canceller, process owner and reaper keeps arbitration, process and lock in agreement |
| `ProcessOwnership.RunsKeepInv` | src/iperf3_lib/_cancellation.py:37-249 | So does every interleaving over any number of operations |
| `ProcessOwnership.OwnershipHolds` | src/iperf3_lib/iperf_server.py:115-147 | Cause and completion never coexist, a late operation never starts, the lock is released at most once and only when its process is confirmed gone |
| `ProcessOwnership.OneWorkerAtATime` | src/iperf3_lib/iperf_server.py:162-213 | At most one worker of a server is alive at a time |
| `ProcessOwnership.RetiredIsReleased` | src/iperf3_lib/_cancellation.py:119-203 | When caller and owner have both ended, the lock has been released exactly once |
| `ProcessOwnership.ExecutionControl.Begin` | src/iperf3_lib/_cancellation.py:37-43 | An operation cancelled before it begins is not admitted |
| `ProcessOwnership.ExecutionControl.Abort` | src/iperf3_lib/_cancellation.py:51-56 | Only the first cause before completion is kept |
| `ProcessOwnership.ExecutionControl.Complete` | src/iperf3_lib/_cancellation.py:65-71 | Completion is committed unless a cause has won |
| `ProcessOwnership.ExecutionControl.Register` | src/iperf3_lib/_cancellation.py:86-94 | A control owns at most one process, callbacks asked for earlier notwithstanding |
| `ProcessOwnership.ExecutionControl.WhenReaped` | src/iperf3_lib/_cancellation.py:78-84 | A callback waits for the reap or is called at once, never both |
| `ProcessOwnership.ExecutionControl.MarkReaped` | src/iperf3_lib/_cancellation.py:119-129 | Every waiting callback is called once, in order; a second reap calls none |
| `Fingerprints.LiveIsArchived` | src/iperf3_lib/reports.py:457-533 | Whenever the live analysis fingerprints a result, the archive accepts the same fingerprint |
| `Fingerprints.ArchiveAcceptsMore` | src/iperf3_lib/analysis.py:950-977 | The archive reads a result the live analysis refuses if and only if its protocol or method is unknown, or a setting has an unknown state or is verified and observed without a value |
| `Fingerprints.FingerprintShape` | src/iperf3_lib/reports.py:457-533 | Every accepted fingerprint spans exactly the compared fields and holds one of the two rate bases |
| `Fingerprints.IntentsAgree` | src/iperf3_lib/analysis.py:1153-1178 | The two readings of the rate-intent extension accept and refuse alike, though only one checks that the intent is an object |
| `Compatibility.LiveVarying` | src/iperf3_lib/analysis.py:1217-1252 | A shared aggregate target frees the rate if and only if every verified rate is its allocation |
| `Compatibility.LiveDecision` | src/iperf3_lib/analysis.py:1216-1295 | The incompatibility flag and the diagnostics decide exactly what the fingerprints say |
| `Compatibility.CheckCompatibility` | src/iperf3_lib/analysis.py:1193-1295 | From trials: refused if and only if an identifier repeats or a fingerprint is refused, else the decision and the fingerprints by identifier |
| `Compatibility.ArchivedVarying` | src/iperf3_lib/reports.py:555-570 | The two all-or-nothing tests of the archive free the rate in the same cases |
| `Compatibility.ArchivedDecision` | src/iperf3_lib/reports.py:553-588 | The two flags of the archive decide exactly what the fingerprints say |
| `Compatibility.ValidateCompatibilityV1` | src/iperf3_lib/reports.py:536-593 | Accepts if and only if fingerprints and decision are those it recomputes |
| `Compatibility.ArchiveAcceptsLiveOnly` | src/iperf3_lib/reports.py:536-593 | On trials the live analysis does not refuse, the archive accepts the live analysis and no other under that policy |
| `Compatibility.LiveReadsUnlessLenient` | src/iperf3_lib/analysis.py:1128-1150 | Of the trials the archive can read, the live analysis reads all if and only if the archive was lenient on none |
| `Compatibility.LiveMatchesArchive` | src/iperf3_lib/analysis.py:1193-1295 | Running both on the same trials: the archive confirms whatever the live analysis does not refuse |
| `Verdicts.MedianHalves` | src/iperf3_lib/assessments.py:121-129 | At least half of the values are no larger than the median and at least half no smaller |
| `Verdicts.PassMeans` | src/iperf3_lib/assessments.py:132-168 | A pass if and only if the evidence is compatible and enough, a criterion is set, and the median meets every criterion set within tolerance |
| `Verdicts.FailMeans` | src/iperf3_lib/assessments.py:132-168 | A fail if and only if the same grounds hold and the median misses some criterion set; inconclusive if and only if the grounds do not hold |
| `Verdicts.FiguresMean` | src/iperf3_lib/assessments.py:132-160 | The figures reported are the medians, the least value that meets every criterion set, and the relative change where there is one |
| `Verdicts.RemarksMean` | src/iperf3_lib/assessments.py:132-168 | Each remark is made if and only if what it says holds |
| `Assessments.CanonicalAgrees` | src/iperf3_lib/reports.py:375-408 | On canonical artifacts the archived selection is the live summary |
| `Assessments.SummariesAgree` | src/iperf3_lib/analysis.py:511-586 | Without canonicity the two agree if and only if metadata is present or there is nothing to measure |
| `Assessments.ValidateMeasurements` | src/iperf3_lib/reports.py:611-638 | Decides that one population repeats its evidence and counts nothing twice |
| `Assessments.ValidateExclusions` | src/iperf3_lib/reports.py:645-673 | Decides that every exclusion names fresh evidence and its true reason |
| `Assessments.ValidateReport` | src/iperf3_lib/reports.py:597-695 | Decides exactly the acceptance predicate: populations, exclusions, policy, fingerprints, compatibility and verdict |
| `Assessments.Select` | src/iperf3_lib/assessments.py:208-238 | Measurements are exactly the eligible trials and baselines, in order, and everything else is excluded once with its reason |
| `Assessments.AssessPlan` | src/iperf3_lib/assessments.py:171-248 | Refuses if and only if a summary or a compared fingerprint is malformed; every report it builds passes the validator |

## Left out

- libiperf, the foreign-function layer, option builders, credentials and environment handling: foreign calls.
- Result, artifact, configuration and report codecs, and all rendering: long field-by-field conversions, mostly one-branch facts.
- Interval stability, stream balance, scaling and asymmetry analyses: arithmetic over one list, no interplay with the rest.
- JsonReading.ValueReads: the text of a float is that of a number and no integer, as Python renders it; a float is compared by its text.
- Floating point: clock values, rates and fractions are reals; rounding and formatting are not modelled.
- `json.loads`: the frame layer takes any body decoder, and `JsonReading` reads only what the encoder writes (no white space, no escaped surrogate pairs); a native payload carries what strict parsing makes of it.
- Sleeping and timers: a wait is a step at which the clock may advance by anything; `wait_timeout` is not modelled, only what is read from the clock afterwards.
- Locks and conditions: each locked block is one atomic step; notification is infallible.
- Wording of diagnostics: counted and bounded, not compared.
- Exceptions other than cancellation striking inside a cleanup wait (a keyboard interrupt, say).
- Partial writes on the pipe: the system moves whole frames; arbitrary cutting of the byte stream is covered by the frame decoder alone.
- ConcurrentTrials.Run.Execute: assumes that every child eventually settles once admitted; without that the source's loop waits as well.
- ConcurrentTrials.Run.Admit: the fence inside the task (deadline or cancellation before the client is called) is part of the child's arbitrary outcome.
- WorkerComposition.EveryFrameIsAccepted: the worker's error class names are ordinary (at most 256 characters), as the reserved allowance presumes.
- WorkerComposition.LiveEventsAreConserved: speaks of runs whose report was consumed; a parser failure publishes no counters, so such a run has no account.
- EventCapture.RunCapture: at most 2^63 - 3 callbacks, so that counters stay protocol integers; a failed parser closes without publishing anything.
- EventCapture.Capture.Retain: which fields survive a parser failure is not modelled, since nothing of them is published.
- EventStream.Stream.Next: the single-consumer checks and `aclose` are not modelled; one reader is assumed.
- ProcessOwnership.OwnershipHolds: signals and exit codes are steps of an abstract process; a process that never exits keeps its lock, as in the source.
- AdaptiveExecution.RunPlan: without the elapsed admission limit, which an adaptive search may not have.
- AdaptiveExecution.RunAdaptiveUdp: assumes that a sleep lasts at least as long as it was asked to; otherwise the driver's own history check refuses the next batch.
- ConcurrentPlan.PrepareConcurrentPlan: whether `prepare_plan` accepts the inner plan and returns it unchanged, and the compressed form of an IP literal, are given with the plan; lower-casing is ASCII.
- ConcurrentReports.ValidateHistory: the comparison with the re-prepared inputs is the plan's `admitted` flag, since preparation itself refuses a plan it would change and copies policy and resources.
- SequentialReports.ValidateHistory: the comparison with the re-prepared plan is the plan's `admitted` flag.
- Assessments.ValidateReport: the plan history inside the report (`_validate_history`) is taken as valid; `SequentialReports` covers the like checks for owned plans.
- AdaptiveSearch.MakeBatch: setting and endpoint checks of one observation are given as flags of the evidence; how `_setting_checks_v1` derives them is not modelled.
- Assessments.AssessPlan: starts from retained records whose trial identifiers are distinct and whose artifacts are canonical, which the codecs it calls first establish.
- Fingerprints.LiveFingerprint: following a setting's receipt pointers is reduced to its outcome (observed, not observed, malformed pointers).
- Compatibility.CheckCompatibility: identifiers stand for nonempty strings, and the policy has passed its own checks.
- Documentation and code agree on everything modelled here except that a wrapped event of kind "complete" is taken as a complete document; the model follows the code.

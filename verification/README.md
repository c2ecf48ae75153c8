# Verified model of the market data pipeline

Dafny models, with proofs, of the parts of the pipeline where correctness depends
on the order of effects across crashes, failures and suspended tasks. Every
`.dfy` file is part of the project; `dafny verify dfyconfig.toml` checks it.

## What is modelled

**Candle processing by pure replay** (`CandleMaking`, `TickLog`, `CandleProcessing`,
`ReplayProtocol`, `Aggregation`). The processor folds one partition of the raw tick
log into one-minute candles per symbol. At a minute boundary it inserts the finished
candle, skipping a row that is present, and then commits the oldest replay start of
all symbols. A process can die between any two requests, and a request can take
effect and still be reported as failed. `CandleProcessing` holds the objects; their
methods are proved to do what the function `Handle` says, and `ReplayProtocol` is the
state machine over it: appends, starts at the committed offset with empty memory,
deliveries, crashes, and inserts that take effect only after their process has died.
A *run* is a maximal block of one symbol's consecutive ticks in
one minute. The main result: whatever happens, the table is the one a crash-free run
would have stored, namely the bar of the first closed run of each symbol and minute.
No assumption is made about timestamps. Where per-symbol minutes do not go backwards,
each row is the exact bar of its minute, and the 5m to 1d views equal folds over the
ticks; where they do, a row misses the ticks after its first run, and is exact if and only
if these stay in its range and end on its close.

**Leader election** (`LeaderElection`, `LeadershipInvariant`, `ElectionCluster`,
`ElectionEngagement`, `ElectionSafety`, `ElectionLimits`, `ElectionProgress`,
`LeaderElectionObject`). Each
stretch of code between two awaits is a function on the state of a service, a method of the object proved to compute it, and a
step of the state machine; suspended tasks are data. N services run against one lock
owner with sessions, and replies, losses, failed callbacks and `stop()` interleave
freely. Histories of callbacks are checked by an automaton, from which serialization,
fail-closed behaviour and the end of sessions are read off. `IngestionRuntime` puts the
start and stop of the active workload behind these callbacks, and `EpochShutdown` sets
its ledger against the ticks in flight.

**Upstream feed** (`RealtimeStream`, `TwelveDataStreamObject`). Kafka sends are pipelined;
Redis publishes are chained per symbol behind promise tails.

**Pending queue** (`PendingKeys`, `SymbolEscape`, `PendingStore`, `PendingQueue`,
`PendingIntake`, `CandlePersistence`). Keys are ordered and injective; every accepted candle
is queued; the single-flight flush acknowledges only what it has written; opening, closing
and crashing lose nothing that was durable.

**Request cooldown** (`RequestCooldown`). One deadline shared by all REST requests.

## What the proofs show about the code

- Truncated candles are really rebuilt after a restart (`TruncatedCandlesOccur`); only
  the inserts that skip present rows make them harmless.
- A tick that arrives late for its minute is in no row. `RowMissesOnlyLateTicks` says
  exactly when the row is right all the same, and `LateTickIsLost` is a case where it
  is not.
- `stop()` of a service that is activating or leader returns the lock while its workload
  is still starting or active, so another service can start its own beside it. This is
  exact: a stop in standby or while deactivating is harmless (`AtMostOneAtWork`), and
  from every reachable state of the other kind the overlap can be reached with any replica
  in standby (`StopWhileLeadingOverlaps`). Such a stop also ends the session under the
  workload (`StopWhileLeadingEndsEarly`). The guard that decides it is the one at lines 102-104 of
  the election service.
- After a failed activation, a failing unlock can end a lost session before the callback
  for its loss has settled (`RefusedActivationEndsEarly`). On every other loss path the
  order "deactivate, then end the session" is proved (`LostSessionEndsAfterDeactivation`).
- A clock that is set back can let a request through before an issued deadline;
  `AdmittedExactly` says for every clock when a request is admitted.
- A batch size that is not a positive integer never empties the pending store (`Drains`).
- The repository's README.md (lines 12-34 and 101-104) describes an ingestor without
  Kafka and leader election that queues candles in RocksDB. The code has both, and its
  entry points no longer use the queue; the model follows the code.

## Conventions

Offsets are indices of the log. `Option<Tick>` stands for a record that may not parse.
Flags named `lands` and `returns`, `reported` or `ok` separate whether a request takes
effect from what its caller is told. Prices, times and delays are real numbers. A
`Run` function applies a sequence of steps in which those that are not enabled change
nothing, so lemmas about all step sequences are lemmas about all reachable states.

## Model

| member | source | states |
|---|---|---|
| `CandleMaking.MinuteStart` | src/modules/candle/candle.maker.ts:19 | the start is a whole minute at or before the timestamp and less than a minute before it |
| `CandleMaking.CandleMaker.Update` | src/modules/candle/candle.maker.ts:13-45 | after a tick the current candle has taken it in, and a candle is returned exactly when the tick lies in another minute |
| `CandleMaking.MinuteMakesOneCandle` | src/modules/candle/candle.maker.ts:13-45 | trades of one minute make one candle with their first, highest, lowest and last price and total volume |
| `CandleMaking.CompletesOutsideMinute` | src/modules/candle/candle.maker.ts:21-36 | a candle is completed by exactly the trades outside its minute |
| `TickLog.FoldWellFormed` | src/modules/candle-processing/candle-processor.ts:78-96 | a replay holds a candle and a replay start for the same symbols, and no start before the replay's base |
| `TickLog.FoldHoldsOpenRuns` | src/modules/candle/candle.maker.ts:13-45 | after any prefix the candle held for a symbol is the open/high/low/close of its open run, and its replay start is the run's first tick |
| `TickLog.ClosesEndsRun` | src/modules/candle/candle.maker.ts:21-36 | a record completes a candle exactly when it ends a run, and the candle is that run's bar |
| `TickLog.StoredIsFirstRuns` | src/modules/candle-processing/candle-processor.ts:62-177 | an undisturbed reader stores, per symbol and minute, the bar of the first closed run, and nothing else |
| `TickLog.FirstRunsDetermineTable` | src/modules/candle/candle.repository.ts:170-186 | that account leaves no freedom: two tables that meet it are equal |
| `CandleProcessing.CandleRepository.BulkSave1mCandles` | src/modules/candle/candle.repository.ts:170-186 | rows that are present stay, the others are inserted, and the count returned is the number of rows added |
| `CandleProcessing.FirstOfBatchIsKept` | src/modules/candle/candle.repository.ts:170-186 | an insert of any batch keeps the rows that are there and adds one row for every other key: the first candle of the batch that has it |
| `CandleProcessing.CandleProcessor.constructor` | src/modules/candle-processing/candle-processor.ts:49-60 | a processor with at least one symbol starts with nothing in memory |
| `CandleProcessing.CandleProcessor.GetCandleMaker` | src/modules/candle-processing/candle-processor.ts:179-190 | one maker per symbol, created empty on first use; no other maker is touched |
| `CandleProcessing.CandleProcessor.GetSafeReplayOffset` | src/modules/candle-processing/candle-processor.ts:192-206 | the loop returns the least of all replay starts |
| `CandleProcessing.CandleProcessor.UpdateCandle` | src/modules/candle-processing/candle-processor.ts:78-96 | a new symbol's replay start is this record; only this symbol's candle changes |
| `CandleProcessing.CandleProcessor.Checkpoint` | src/modules/candle-processing/candle-processor.ts:125-176 | insert before commit: a failed insert leaves replay starts and cursor alone; otherwise the oldest replay start is committed |
| `CandleProcessing.CandleProcessor.Process` | src/modules/candle-processing/candle-processor.ts:62-177 | the whole new state and outcome of one record, for every failure of its two requests |
| `CandleProcessing.CandleProcessingRuntime.OnRecord` | src/modules/candle-processing/candle-processing.runtime.ts:27-59 | a record that does not parse or is rejected is fatal; a candle is published only after its record has been processed, and a failed publish is harmless |
| `CandleProcessing.ProcessedAbsorbs` | src/modules/candle-processing/candle-processor.ts:62-177 | a processed record leaves the memory of a reader one record further on |
| `ReplayProtocol.ReplayTracks` | src/modules/candle-processing/candle-processor.ts:78-96 | a replay from any base agrees with a full reader on every run that opens at or after the base, and on the minute of the others |
| `ReplayProtocol.CaughtUp` | src/modules/candle-processing/candle-processor.ts:41-47 | a replay that started at or before every open run ends with the memory of a full reader |
| `ReplayProtocol.ReplayedRowExists` | src/modules/candle/candle.repository.ts:181-184 | a candle completed below the high-water mark already has its row |
| `ReplayProtocol.CheckpointIsSafe` | src/modules/candle-processing/candle-processor.ts:140-149 | the oldest replay start after a boundary is safe for the whole prefix read so far, even in mid-replay with symbols still missing |
| `ReplayProtocol.LandingKeepsInv` | src/modules/candle/candle.repository.ts:181-184 | an insert that lands after its process has died adds nothing below the high-water mark and the full bar at it |
| `ReplayProtocol.ReachableInv` | src/modules/candle-processing/candle-processor.ts:62-177 | the protocol invariant holds after every sequence of appends, starts, crashes, late landings and deliveries with any failures |
| `ReplayProtocol.ReplayRefinesCrashFreeRun` | src/modules/candle-processing/candle-processor.ts:62-177 | in every reachable state the table is exactly what a crash-free run over the high-water prefix would have stored |
| `ReplayProtocol.CheckpointSafety` | src/modules/candle-processing/candle-processor.ts:140-149 | in every reachable state the committed offset is at or before the first tick of every open run of the high-water prefix |
| `ReplayProtocol.CatchUp` | src/modules/candle-processing/candle-processor.ts:78-96 | a process at the high-water mark holds the candles and replay starts of a crash-free reader there |
| `ReplayProtocol.TruncatedReplayHarmless` | src/modules/candle/candle.repository.ts:181-184 | a candle rebuilt during replay, truncated or not, changes nothing when inserted |
| `ReplayProtocol.CheckpointMonotone` | src/modules/candle-processing/candle-processor.ts:192-206 | committed offsets never decrease, within a process or across restarts |
| `ReplayProtocol.CheckpointNotAhead` | src/modules/candle-processing/candle-processor.ts:140-149 | a delivery never commits beyond the record it handles |
| `ReplayProtocol.DeliveryLeaves` | src/modules/candle-processing/candle-processing.runtime.ts:27-59 | in every reachable state a delivery publishes exactly the candle its record completes, if it was stored and committed and Redis takes it; commits the oldest replay start exactly if that candle was stored; and ends the process exactly if something failed |
| `ReplayProtocol.AnnouncedIsDurable` | src/modules/candle-processing/candle-processing.runtime.ts:39-45 | every published candle has its row in the table |
| `ReplayProtocol.RejectedRecordBlocks` | src/modules/candle-processing/candle-processing.runtime.ts:46-56 | no process, checkpoint or stored prefix ever gets past a record that is rejected |
| `ReplayProtocol.TruncatedCandlesOccur` | src/modules/candle-processing/candle-processor.ts:41-47 | a concrete log on which the committed offset lies inside a stored run and the replay rebuilds a different candle |
| `ReplayProtocol.UndisturbedProcessRecovers` | src/modules/candle-processing/candle-processor.ts:31-35 | after any run, one process left alone to the end of the log makes the table that of a crash-free run over the whole log |
| `Aggregation.RollupIsGroupRow` | prisma/migrations/20260820000000_architecture_lab_baseline/migration.sql:23-35 | the roll-up of minute rows is the view's row: first open, max high, min low, last close and summed volume of the group, and no row for an empty group |
| `Aggregation.SplitRange` | prisma/migrations/20260820000000_architecture_lab_baseline/migration.sql:23-35 | with ordered minutes the bar of a range is the bar of its earlier part joined with that of its later part |
| `Aggregation.OrderedMinutesExact` | src/modules/candle/candle.maker.ts:13-45 | with ordered minutes a minute has a row exactly when it has ticks and its symbol has moved on, and the row is the bar of all its ticks |
| `Aggregation.RollupIsTickBar` | prisma/migrations/20260820000000_architecture_lab_baseline/migration.sql:23-35 | with ordered minutes a bucket of rows rolls up to the bar of the bucket's ticks, up to the minute still open |
| `Aggregation.ViewsAggregateTicks` | prisma/migrations/20260820000000_architecture_lab_baseline/migration.sql:23-127 | in every reachable state with ordered minutes, for buckets of any number of minutes: a view row is the SQL aggregate of its group and the bar of the bucket's ticks, up to the minute still open |
| `Aggregation.RowsAreExactMinutes` | prisma/migrations/20260820000000_architecture_lab_baseline/migration.sql:3-12 | in every reachable state with ordered minutes each row is the exact bar of its minute |
| `Aggregation.RowMissesOnlyLateTicks` | src/modules/candle/candle.repository.ts:181-184 | whatever the order of timestamps, a row is the bar of its minute's ticks up to the end of its first run; it is the bar of all of them exactly if the late ones stay in its range and end on its close |
| `Aggregation.EarlyThenLate` | src/modules/candle/candle.repository.ts:181-184 | the bar of a minute is that of its ticks up to any record joined with that of the later ones |
| `Aggregation.LateTickIsLost` | src/modules/candle/candle.maker.ts:21-36 | a concrete log where that condition fails: a late tick whose price is in no row |
| `LeaderElectionObject.LeaderElectionService.Start` | src/modules/coordination/postgres-advisory-leader-election.ts:74-89 | a stopped service becomes standby and attempts an acquisition |
| `LeaderElectionObject.LeaderElectionService.TryAcquireLeadership` | src/modules/coordination/postgres-advisory-leader-election.ts:123-138 | an attempt begins only in standby with none in progress; it reuses the session or makes one |
| `LeaderElectionObject.LeaderElectionService.ConnectResolves` | src/modules/coordination/postgres-advisory-leader-election.ts:312-327 | a connection that comes after stop() or a failure is closed, otherwise it becomes the session |
| `LeaderElectionObject.LeaderElectionService.ConnectRejects` | src/modules/coordination/postgres-advisory-leader-election.ts:328-331 | a failed connection is closed and the attempt ends |
| `LeaderElectionObject.LeaderElectionService.LockQueryResolves` | src/modules/coordination/postgres-advisory-leader-election.ts:150-191 | a reply on a session that is no longer current is dropped; a refusal means standby; a grant queues the activation |
| `LeaderElectionObject.LeaderElectionService.LockQueryRejects` | src/modules/coordination/postgres-advisory-leader-election.ts:238-276 | an error means standby unless a deactivation is under way, and closes the session if it is still current |
| `LeaderElectionObject.LeaderElectionService.ActivationResumes` | src/modules/coordination/postgres-advisory-leader-election.ts:192-237 | leader only if nothing was lost or stopped meanwhile; a failed activation gives the lock back or ends |
| `LeaderElectionObject.LeaderElectionService.UnlockQueryResolves` | src/modules/coordination/postgres-advisory-leader-election.ts:357-412 | a confirmed unlock returns to standby, an unconfirmed one closes the session |
| `LeaderElectionObject.LeaderElectionService.UnlockQueryRejects` | src/modules/coordination/postgres-advisory-leader-election.ts:387-412 | a failed unlock closes the session |
| `LeaderElectionObject.LeaderElectionService.TransitionStarts` | src/modules/coordination/postgres-advisory-leader-election.ts:291-301 | the next callback of the queue starts |
| `LeaderElectionObject.LeaderElectionService.TransitionSettles` | src/modules/coordination/postgres-advisory-leader-election.ts:291-301 | the callback's outcome goes to the task that queued it, and the queue goes on either way |
| `LeaderElectionObject.LeaderElectionService.HandleCoordinationConnectionLost` | src/modules/coordination/postgres-advisory-leader-election.ts:428-501 | only the current session's loss counts; in standby it is closed, otherwise a deactivation is queued |
| `LeaderElectionObject.LeaderElectionService.StandbyLossCloses` | src/modules/coordination/postgres-advisory-leader-election.ts:470-480 | after closing, a retry is scheduled unless stopped or disabled |
| `LeaderElectionObject.LeaderElectionService.DeactivationResumes` | src/modules/coordination/postgres-advisory-leader-election.ts:498-512 | the lost session is closed whatever the deactivation's outcome |
| `LeaderElectionObject.LeaderElectionService.LossCloses` | src/modules/coordination/postgres-advisory-leader-election.ts:514-562 | a failed deactivation disables retries and is reported; otherwise back to standby and retry |
| `LeaderElectionObject.LeaderElectionService.Stop` | src/modules/coordination/postgres-advisory-leader-election.ts:91-121 | everything is cleared at once, and the session is released and closed, or only closed |
| `LeaderElectionObject.LeaderElectionService.ReleaseForStopSettles` | src/modules/coordination/postgres-advisory-leader-election.ts:586-606 | after the unlock attempt the session is closed |
| `LeaderElectionObject.LeaderElectionService.Take` | src/modules/coordination/postgres-advisory-leader-election.ts:123-302 | whatever the event loop resumes next, the invariant and a legal history are kept |
| `LeaderElectionObject.LeaderElectionService.DoScheduleRetry` | src/modules/coordination/postgres-advisory-leader-election.ts:564-578 | a timer is set only in standby, and only one |
| `LeaderElectionObject.LeaderElectionService.DoCloseCoordinationClient` | src/modules/coordination/postgres-advisory-leader-election.ts:608-619 | the session stops being current and is ended, at most once |
| `LeadershipInvariant.StepKeepsService` | src/modules/coordination/postgres-advisory-leader-election.ts:123-302 | every step of every task keeps the invariant of a service and appends only what its history allows |
| `ElectionCluster.ReachableInv` | src/modules/coordination/postgres-advisory-leader-election.ts:145-148 | the invariant of N services over one lock owner holds after every interleaving |
| `ElectionSafety.HistoriesAreLegal` | src/modules/coordination/postgres-advisory-leader-election.ts:279-302 | every history of callbacks, lock requests, losses and session ends is accepted by the history automaton |
| `ElectionSafety.CallbacksNeverOverlap` | src/modules/coordination/postgres-advisory-leader-election.ts:279-302 | between two callback starts a callback has settled |
| `ElectionSafety.DeactivationSeparatesActivations` | src/modules/coordination/postgres-advisory-leader-election.ts:428-512 | after a successful activation the next one waits for a successful deactivation of the same session |
| `ElectionSafety.FailsClosed` | src/modules/coordination/postgres-advisory-leader-election.ts:514-551 | after a failed deactivation there is no lock request and no callback, ever |
| `ElectionSafety.EndsAndReportsOnce` | src/modules/coordination/postgres-advisory-leader-election.ts:615-619 | no session is ended twice and no failure reported twice |
| `ElectionSafety.EndedOnlyAfterDeactivation` | src/modules/coordination/postgres-advisory-leader-election.ts:498-512 | unless the service is stopped while activating or leader, a session whose activation succeeded is ended only after its deactivation has settled |
| `ElectionSafety.LostSessionEndsAfterDeactivation` | src/modules/coordination/postgres-advisory-leader-election.ts:488-512 | a lost session whose activation had begun is ended only after its deactivation has settled, stop() or not, unless that activation had failed before the loss was reported |
| `ElectionSafety.BrokenMeansFailedDeactivation` | src/modules/coordination/postgres-advisory-leader-election.ts:514-551 | the history is broken exactly if some deactivation failed |
| `ElectionSafety.FailureIsReported` | src/modules/coordination/postgres-advisory-leader-election.ts:514-551 | a failed deactivation has been reported, and the service is out for good, once its handler is past closing the session |
| `ElectionEngagement.EngagementShrinks` | src/modules/coordination/postgres-advisory-leader-election.ts:145-191 | only the reply to a lock request engages a service; no other step does |
| `ElectionEngagement.ReplyEngages` | src/modules/coordination/postgres-advisory-leader-election.ts:150-191 | a reply engages a service only on its own session, for which the server holds the lock |
| `ElectionEngagement.StepKeepsEngaged` | src/modules/coordination/postgres-advisory-leader-election.ts:145-237 | every step keeps the lock of every session the service is engaged on, unless it was stopped while leading |
| `ElectionEngagement.AtMostOneAtWork` | src/modules/coordination/postgres-advisory-leader-election.ts:145-237 | of N services at most one is engaged on a session the server still has (activation queued or running, active, or being deactivated, lost or not), and it holds the lock; only services stopped while activating or leader are exempt |
| `ElectionSafety.LeaderNeverStale` | src/modules/coordination/postgres-advisory-leader-election.ts:228-237 | a service is leader only on the session it activated, which it has neither lost nor ended |
| `ElectionSafety.LockDepthAtMostOne` | src/modules/coordination/postgres-advisory-leader-election.ts:145-148 | the lock is never requested on a session that holds it or has a request in transit; its depth stays at most one |
| `ElectionSafety.SessionsConserved` | src/modules/coordination/postgres-advisory-leader-election.ts:304-332 | every session made is closed, current, or owned by a task that will close it |
| `ElectionSafety.NeverStalls` | src/modules/coordination/postgres-advisory-leader-election.ts:564-578 | every running service has a task that will take it out of its state |
| `ElectionLimits.StandbyGetsFreeLock` | src/modules/coordination/postgres-advisory-leader-election.ts:123-191 | from every reachable state with the lock free, a service that runs and stands by can get it and queue its activation, by its own and the server's steps alone |
| `ElectionProgress.StandbyBecomesLeader` | src/modules/coordination/postgres-advisory-leader-election.ts:123-237 | from the same states it can become leader on a session that holds the lock |
| `ElectionProgress.RefusedAsksAgain` | src/modules/coordination/postgres-advisory-leader-election.ts:158-162 | a refused service keeps its session and asks again on it at its next retry, with no other made or ended in between |
| `ElectionProgress.FailedActivationUnlocks` | src/modules/coordination/postgres-advisory-leader-election.ts:192-217 | a service whose activation fails can give the lock back and stand by on the same session |
| `ElectionProgress.LossRunsDown` | src/modules/coordination/postgres-advisory-leader-election.ts:428-562 | from every reachable state in which a service activates or leads, the loss of its session can run down: a pending activation settles, then the deactivation, then the session is ended; then the service retries, or after a failed deactivation reports and stays out |
| `ElectionProgress.StandbyLossEnds` | src/modules/coordination/postgres-advisory-leader-election.ts:458-480 | a session lost in standby is dropped and ended at once, whatever the acquisition is doing |
| `ElectionProgress.StopRunsDown` | src/modules/coordination/postgres-advisory-leader-election.ts:91-121 | from every reachable state stop() can run to its end, and has then ended the current session, if any, and nothing else |
| `ElectionLimits.StopWhileLeadingOverlaps` | src/modules/coordination/postgres-advisory-leader-election.ts:102-113 | the exemption of AtMostOneAtWork is exact: from every reachable state in which a service is at work as activating or leader, stop() lets any service that stands by get to work beside it |
| `ElectionLimits.StopWhileLeadingEndsEarly` | src/modules/coordination/postgres-advisory-leader-election.ts:102-113 | the exemption of EndedOnlyAfterDeactivation is exact: from every such state stop() ends the session with the workload still on it |
| `ElectionLimits.RefusedActivationEndsEarly` | src/modules/coordination/postgres-advisory-leader-election.ts:350-413 | the exception is real: from every reachable state with the release after a failed activation in flight, the session can be lost and ended while the callback for its loss runs |
| `ElectionLimits.RefusalOccurs` | src/modules/coordination/postgres-advisory-leader-election.ts:192-217 | such states are reached whenever the lock is free and an activation fails |
| `IngestionRuntime.ActiveIngestionRuntime.Start` | src/modules/ingestion/active-ingestion.runtime.ts:35-101 | what is made, kept and stopped for every point at which start() can throw |
| `IngestionRuntime.ActiveIngestionRuntime.Stop` | src/modules/ingestion/active-ingestion.runtime.ts:103-194 | all references are dropped, every resource there is gets stopped in order, and any error is passed on |
| `IngestionRuntime.ActiveIngestionRuntime.CleanupAfterStartFailure` | src/modules/ingestion/active-ingestion.runtime.ts:196-230 | a failed start leaves nothing open |
| `IngestionRuntime.StartFromClosed` | src/modules/ingestion/active-ingestion.runtime.ts:35-101 | from a torn-down runtime, start() opens everything or tears down what it made |
| `IngestionRuntime.StopFromOpen` | src/modules/ingestion/active-ingestion.runtime.ts:103-194 | from a fully open runtime, stop() tears everything down even when stops fail |
| `IngestionRuntime.StartMakes` | src/modules/ingestion/active-ingestion.runtime.ts:35-101 | from a torn-down runtime, start() makes exactly the resources that come before the point at which it throws |
| `IngestionRuntime.StartOutcome` | src/modules/ingestion/active-ingestion.runtime.ts:35-101 | in every legal history an activation settles as successful exactly if nothing in start() throws |
| `IngestionRuntime.StopOutcome` | src/modules/ingestion/active-ingestion.runtime.ts:148-177 | in every legal history a deactivation settles as failed exactly if the workload was active and one of the three stops rejects |
| `IngestionRuntime.FailedTeardownFailsClosed` | src/modules/coordination/postgres-advisory-leader-election.ts:514-551 | in every reachable cluster stop() of an active workload fails exactly if one of the three stops rejects, and then there is no lock request and no callback, ever |
| `IngestionRuntime.HistoryDrivesEpochs` | src/modules/coordination/postgres-advisory-leader-election.ts:189-191 | driven by any legal callback history, everything is open exactly while the workload is active |
| `IngestionRuntime.EpochTeardown` | src/modules/ingestion/active-ingestion.runtime.ts:103-177 | in every reachable cluster each resource is made and stopped exactly once, in the order feed, producer, publisher, before the next epoch |
| `EpochShutdown.FeedClosedFirst` | src/modules/ingestion/active-ingestion.runtime.ts:135-163 | an epoch that had a feed and stops its producer has stopped the feed before |
| `EpochShutdown.NoSendAtDisconnect` | src/modules/ingestion/active-ingestion.runtime.ts:135-163 | in every reachable cluster, unless the feed's stop rejected, no Kafka send is in flight when the producer is stopped, and none starts after |
| `TwelveDataStreamObject.TwelveDataStream.OnMessage` | src/modules/market-data/twelvedata.provider.ts:245-268 | a message after stop() is dropped; otherwise its handler runs and is tracked |
| `TwelveDataStreamObject.TwelveDataStream.HandlePriceUpdate` | src/modules/market-data/twelvedata.provider.ts:84-155 | an unknown symbol is dropped; otherwise the Kafka send starts at once and the realtime phase is queued |
| `TwelveDataStreamObject.TwelveDataStream.RunSymbolRealtimePhase` | src/modules/market-data/twelvedata.provider.ts:157-177 | the phase is chained behind the symbol's tail and becomes the tail |
| `TwelveDataStreamObject.TwelveDataStream.AfterKafkaAdmission` | src/modules/market-data/twelvedata.provider.ts:142-152 | only an acked tick goes on to Redis |
| `TwelveDataStreamObject.TwelveDataStream.RealtimePhaseFinally` | src/modules/market-data/twelvedata.provider.ts:179-183 | the tail is forgotten only if it is still this tick's |
| `TwelveDataStreamObject.TwelveDataStream.StopFeed` | src/modules/market-data/twelvedata.provider.ts:62-73 | no further message is taken, and the handlers active now are waited for; nothing on a stream that is stopped |
| `RealtimeStream.StepKeepsInv` | src/modules/market-data/twelvedata.provider.ts:84-184 | every arrival, ack, failure, completion and stop keeps the queue invariant |
| `RealtimeStream.RealtimeOrder` | src/modules/market-data/twelvedata.provider.ts:157-184 | under any interleaving a symbol's publishes are the first of its acked ticks, in arrival order, one at a time; sends go out in arrival order without waiting |
| `RealtimeStream.EveryArrivalIsSent` | src/modules/market-data/twelvedata.provider.ts:84-155 | under any interleaving the sends are exactly the ticks that arrived for a subscribed symbol before stop(), in order, and Kafka's first answer to each decides whether it goes on to Redis |
| `RealtimeStream.PublishesAreAckedTicks` | src/modules/market-data/twelvedata.provider.ts:134-154 | once a symbol's handlers have settled its publishes are exactly its acked ticks |
| `RealtimeStream.QueueNeverStuck` | src/modules/market-data/twelvedata.provider.ts:165-175 | an unsettled tick always has one at or before it that can go on or waits only for Kafka or Redis |
| `RealtimeStream.TailsAreExact` | src/modules/market-data/twelvedata.provider.ts:157-183 | in every reachable state a symbol has a tail exactly as long as its last handler has not finished, and the tail is that handler |
| `RealtimeStream.StoppedStreamIsQuiet` | src/modules/market-data/twelvedata.provider.ts:62-73 | after stop() has resolved no Kafka send is in flight, and none starts |
| `RealtimeStream.StopCanResolve` | src/modules/market-data/twelvedata.provider.ts:62-73 | in every reachable state a pending stop() can resolve once all handlers have finished |
| `PendingKeys.ValidateCandle` | src/modules/candle/storage/rocks-pending-candle.store.ts:58-81 | accepts exactly valid candles, and names the first violated rule |
| `PendingKeys.EncodeInjective` | src/modules/candle/storage/rocks-pending-candle.store.ts:55 | the escape of a symbol determines the symbol, for all UTF-16 strings that have one |
| `SymbolEscape.DecodesToSymbol` | src/modules/candle/storage/rocks-pending-candle.store.ts:55 | decodeURIComponent, written out from UTF-8, gets every symbol back from its escape |
| `SymbolEscape.EscapesExactly` | src/modules/candle/storage/rocks-pending-candle.store.ts:55 | the escape is refused exactly for a text with a lone surrogate |
| `SymbolEscape.KeptExactly` | src/modules/candle/storage/rocks-pending-candle.store.ts:55 | a symbol is its own escape exactly if it consists of letters, digits and the nine marks; any other is longer |
| `PendingKeys.PaddedIsFixedWidth` | src/modules/candle/storage/rocks-pending-candle.store.ts:54 | a number that fits is padded to its fixed-width decimal digits |
| `PendingKeys.DigitsOrder` | src/modules/candle/storage/rocks-pending-candle.store.ts:53-56 | fixed-width digits followed by anything compare as the numbers, then as the rest |
| `PendingKeys.KeyOrder` | src/modules/candle/storage/rocks-pending-candle.store.ts:53-56 | keys compare exactly as start time, then escaped symbol |
| `SymbolEscape.KeyOfPair` | src/modules/candle/storage/rocks-pending-candle.store.ts:53-56 | a sample key, character by character |
| `PendingKeys.KeysInjective` | src/modules/candle/storage/rocks-pending-candle.store.ts:53-56 | two keys are equal exactly if symbol and start time are |
| `PendingKeys.KeysInRange` | src/modules/candle/storage/rocks-pending-candle.store.ts:30-33 | every key lies in the range that peek() scans |
| `PendingStore.RocksPendingCandleStore.Enqueue` | src/modules/candle/storage/rocks-pending-candle.store.ts:21-24 | an invalid candle changes nothing; a valid one is put under its key if the write lands |
| `PendingStore.RocksPendingCandleStore.Peek` | src/modules/candle/storage/rocks-pending-candle.store.ts:26-39 | the scan loop yields the first entries up to the limit, and nothing for a limit that is not a positive integer |
| `PendingStore.RocksPendingCandleStore.Ack` | src/modules/candle/storage/rocks-pending-candle.store.ts:41-47 | one transaction removes exactly the given keys, or none |
| `PendingStore.PeekReturnsOldest` | src/modules/candle/storage/rocks-pending-candle.store.ts:26-39 | peek(n) returns the n oldest pending candles in order, or all if there are fewer |
| `PendingStore.EnqueuePuts` | src/modules/candle/storage/rocks-pending-candle.store.ts:21-24 | an enqueue that resolves has put the candle under its key; no other key is touched, and nothing at all if it is refused or does not land |
| `PendingStore.AckRemoves` | src/modules/candle/storage/rocks-pending-candle.store.ts:41-47 | an ack that resolves has removed all its keys and no other; one that does not land removes none |
| `CandlePersistence.CandleFlusher.Flush` | src/modules/candle/candle.flusher.ts:71-80 | a flush starts only when not stopped and none is in flight |
| `CandlePersistence.CandleFlusher.NotifyEnqueued` | src/modules/candle/candle.flusher.ts:63-69 | the count goes up, and a full batch resets it and asks for a flush |
| `CandlePersistence.CandleFlusher.ContinueAfterRead` | src/modules/candle/candle.flusher.ts:109-112 | nothing found ends the flush, otherwise the batch is written |
| `CandlePersistence.CandleFlusher.ContinueAfterWrite` | src/modules/candle/candle.flusher.ts:114-142 | only a write that succeeded is followed by the acknowledgement |
| `CandlePersistence.CandleFlusher.Stop` | src/modules/candle/candle.flusher.ts:82-89 | no further flush starts |
| `CandlePersistence.CandlePersistenceLayer.StartCandlePersistence` | src/modules/candle/candle.persistence.ts:16-31 | a new flusher over the store, with a first flush at once; nothing if one is there |
| `CandlePersistence.CandlePersistenceLayer.EnqueueCandle` | src/modules/candle/candle.persistence.ts:54-78 | refused while closing, before start, or for a candle that cannot be stored; any other candle joins the enqueues under way |
| `CandlePersistence.CandlePersistenceLayer.EnqueueSettles` | src/modules/candle/candle.persistence.ts:60-61 | a resolved enqueue notifies the flusher, a rejected one does not |
| `CandlePersistence.CandlePersistenceLayer.InsertRows` | src/modules/candle/candle.flusher.ts:114-126 | the batch is inserted row by row, present rows staying |
| `CandlePersistence.CandlePersistenceLayer.CreateManyLands` | src/modules/candle/candle.flusher.ts:114-126 | the table takes the batch in flight |
| `CandlePersistence.CandlePersistenceLayer.AckTakesEffect` | src/modules/candle/candle.flusher.ts:144-146 | the batch's keys leave the store |
| `CandlePersistence.CandlePersistenceLayer.CloseCandlePersistence` | src/modules/candle/candle.persistence.ts:81-90 | enqueues are refused and the flusher is stopped before anything is awaited; nothing before start |
| `CandlePersistence.CandlePersistenceLayer.ContinueAfterEnqueuesSettled` | src/modules/candle/candle.persistence.ts:95-112 | the store is closed when all enqueues have settled |
| `PendingQueue.BatchTriggersFlush` | src/modules/candle/candle.flusher.ts:63-69 | the batch-size-th enqueue asks for a flush and restarts the count, and none before it does; the request is dropped while a flush is in flight or after stop() |
| `PendingQueue.AckKeepsPut` | src/modules/candle/candle.flusher.ts:144-146 | an acknowledgement removes only keys whose rows are in the table |
| `PendingQueue.MoveKeepsInv` | src/modules/candle/candle.flusher.ts:71-163 | every step, failure, close and crash keeps the queue invariant |
| `PendingQueue.Conservation` | src/modules/candle/candle.flusher.ts:71-163 | under any interleaving every enqueue that landed, as all resolved ones have, is pending or has its row; pending values and new rows were enqueued under their key; old rows stay |
| `PendingQueue.CloseIsQuiet` | src/modules/candle/candle.persistence.ts:81-112 | when the store is closed no flush is in flight, and once close has begun no enqueue is taken and no flush starts |
| `PendingIntake.AcceptsFromStartToClose` | src/modules/candle/candle.persistence.ts:54-90 | enqueues are taken exactly from the start of a layer to the close() or crash that ends it |
| `PendingIntake.EveryAcceptedIsQueued` | src/modules/candle/candle.persistence.ts:54-78 | under any interleaving the enqueues under way or done are, in order, those of exactly the storable candles offered while enqueues were taken |
| `PendingIntake.AcceptedCandleCanLand` | src/modules/candle/candle.persistence.ts:59-61 | whatever happens meanwhile, while an accepted candle's enqueue waits its write may land, and makes exactly its key pending with exactly this candle |
| `PendingIntake.ResolvesWithItsWrite` | src/modules/candle/candle.persistence.ts:60-78 | an enqueue resolves exactly if its write is reported done and rejects exactly if it is reported failed |
| `PendingIntake.EveryBatchFlushes` | src/modules/candle/candle.flusher.ts:63-80 | in every reachable state: exactly each batch-size-th enqueue that resolves since the start begins a read of the oldest batch, if the flusher is free |
| `PendingIntake.RestartRecovers` | src/modules/candle/candle.flusher.ts:47-54 | in every reachable state: a start begins at once with the oldest candles still pending |
| `PendingIntake.CloseCanFinish` | src/modules/candle/candle.persistence.ts:81-112 | from every reachable state with a close() under way, promises that settle alone complete it |
| `PendingQueue.Drains` | src/modules/candle/candle.flusher.ts:96-163 | with no new enqueue, each acknowledgement takes one full batch off the store, whatever else fails |
| `PendingQueue.DrainedIsStored` | src/modules/candle/candle.flusher.ts:96-163 | once enough acknowledgements have been made the store is empty and every enqueue that landed has its row |
| `PendingQueue.RoundSucceeds` | src/modules/candle/candle.flusher.ts:96-163 | a flush without failure moves exactly the oldest batch to the table, and the next can begin |
| `PendingQueue.RoundsEmptyStore` | src/modules/candle/candle.flusher.ts:96-163 | k flushes without failure empty the store exactly if k batches reach its size |
| `RequestCooldown.ParseRetryAfterMs` | src/shared/utils/rate-limiter.ts:183-203 | the wait is the number of seconds asked for, or ends at the later date asked for, and there is none exactly if neither is asked for |
| `RequestCooldown.TwelveDataRequestPolicy.BeforeRequest` | src/shared/utils/rate-limiter.ts:55-67 | refused with the time left while cooling down; otherwise admitted, reporting a resume once |
| `RequestCooldown.TwelveDataRequestPolicy.HandleFailure` | src/shared/utils/rate-limiter.ts:69-106 | a 429 extends the cooldown, a transient failure is retried a few times, anything else fails |
| `RequestCooldown.AdmittedOnceDeadlinesPassed` | src/shared/utils/rate-limiter.ts:55-89 | with a clock that keeps the deadlines it has reached, a request is admitted exactly if every deadline issued before it has passed |
| `RequestCooldown.RefusalNamesLatestDeadline` | src/shared/utils/rate-limiter.ts:57-62 | a refused request is told the latest deadline issued so far |
| `RequestCooldown.RateLimitStartsOrExtends` | src/shared/utils/rate-limiter.ts:73-90 | a 429 starts a cooldown exactly if none is on; otherwise it reports the latest deadline, its own included |
| `RequestCooldown.RateLimitIsHonoured` | src/shared/utils/rate-limiter.ts:73-90 | after a 429 no request is admitted before the seconds or date that it asks for, or the default cooldown if it asks for neither; the cooldown ends exactly then, unless one that is on ends later |
| `RequestCooldown.FirstValueCounts` | src/shared/utils/rate-limiter.ts:191 | of a header with several values the first counts |
| `RequestCooldown.FirstAfterCooldownResumes` | src/shared/utils/rate-limiter.ts:64-66 | for any clock, an admitted request reports a resume exactly if it is the first admitted since some 429 |
| `RequestCooldown.ResumesMatchStarts` | src/shared/utils/rate-limiter.ts:64-89 | resumes are never reported more often than cooldown starts |
| `RequestCooldown.DeadlineBinds` | src/shared/utils/rate-limiter.ts:57-66 | for any clock, an issued deadline binds until a request is admitted at or after it |
| `RequestCooldown.AdmittedExactly` | src/shared/utils/rate-limiter.ts:55-89 | for any clock, a request is admitted exactly if every deadline issued so far has passed or has been lifted by an earlier admission at or after it |
| `RequestCooldown.AdmittedEarlyExactly` | src/shared/utils/rate-limiter.ts:57-66 | a request before an issued deadline is admitted exactly if every such deadline has been lifted, and only if the clock has been at or after it since |
| `RequestCooldown.ForwardClockHolds` | src/shared/utils/rate-limiter.ts:55-89 | a clock that never goes back keeps the deadlines it has reached |
| `RequestCooldown.ClockSetBackAdmitsEarly` | src/shared/utils/rate-limiter.ts:64-66 | a concrete trace in which that happens |
| `RequestCooldown.AtMostFourAttempts` | src/shared/utils/rate-limiter.ts:99-105 | a job is attempted at most four times, again only after a transient failure |
| `RequestCooldown.RetryDelays` | src/shared/utils/rate-limiter.ts:99-105 | the delay doubles from one second and carries less than a quarter of jitter; a cooldown refusal is never retried |
| `RequestCooldown.RetriedFailures` | src/shared/utils/rate-limiter.ts:172-181 | retried are exactly 408, 5xx, and five network errors without a status, at most three times |

## Left out

- Kafka, Redis, PostgreSQL, RocksDB, ws and Bottleneck themselves: they are a log with a cursor, a sink, a lock owner with sessions, an ordered map, an event source and a caller of the failure handler.
- Several partitions, gaps between offsets, redelivery inside one process, a consumer that goes on after a rejection (the runtime treats it as fatal), and two processors at once.
- An offset commit that takes effect only after its process has died.
- Parsing of raw ticks, and symbols configured differently across restarts.
- Floating-point rounding and NaN in prices; week and month views; refresh policies of the views.
- A second `start()` of an election service, and the signal-driven shutdown in src/ingestor.ts, which stops the workload outside the lifecycle queue.
- ElectionEngagement.AtMostOneAtWork: exempts services stopped while activating or leader, because the code then gives the lock back under a workload, as StopWhileLeadingOverlaps shows; and speaks of sessions the server still has, because a service hears of the end of its session only later.
- ElectionSafety.LostSessionEndsAfterDeactivation: exempts an activation that had failed before the loss was reported, where the code can end the session first, as RefusedActivationEndsEarly shows.
- ElectionSafety.EndedOnlyAfterDeactivation: exempts services stopped while activating or leader, where the code ends the session first, as StopWhileLeadingEndsEarly shows.
- An unlock request that the server executes after its client has given up on it, and the standby announcement, which only affects logging.
- ReplayProtocol.AnnouncedIsDurable: states only that a row with the candle's key exists, because a replay may publish a truncated candle.
- PendingQueue.Conservation: states that the key of an enqueued candle is kept, not its value, because an enqueue of the same key during a flush may be acknowledged away or meet a present row.
- JSON encoding and decoding in the pending store, corrupt stored values (a failed read stands for them), what a second close() does after its first await while one is under way, and the flusher's failure-state logging.
- Reconnects, heartbeats and invalid messages of the upstream feed; failed Redis publishes count as settled, as in the code.
- RequestCooldown.ParseRetryAfterMs: takes the results of Number() and Date.parse() on a header text as inputs.
- HTTP routes, controllers, WebSocket fan-out, metrics, logging, configuration, backfill and scripts, which would add only single-branch claims.

# Cepheus, verified

Dafny models of the parts of Cepheus that carry its promises, and proofs of those promises. Cepheus
measures networks with ping, STAMP and traceroute; its agents run the measurements, its processors
store them, and Argus watches the stored series and raises events.

- **Policy engine** (`LeakyBucket`, `PolicyModel`, `PolicyEngineObject`, `PolicyRuns`, `PolicyTimes`, `PolicyQuiet`,
  `PolicyScores`, `PolicyOutcomes`, `PolicyProduct`, `PolicyKeys`): a series is clean, watching, firing or
  recovering; a decaying score moves it, and events are opened and closed in the database. `PolicyModel` is the code
  as functions, `PolicyEngineObject` the class that computes them, `PolicyRuns` a run of reports, sweeps, restarts
  and database failures as one series sees it, and `PolicyProduct` the proof that the whole engine, with its map of
  states swept in any order, is a product of such runs. `PolicyOutcomes` says, on the states and tables alone, what
  reports and sweeps leave behind and what an opened event tells of its findings. Over every run: the shape of each
  state, that no finding is applied twice, how long an event lasts, when an event opens and by when an alarm ends.
  Over runs that report a series under one key, whatever its probe type, and whose restarts find open event and
  pending findings saved: one open event, conservation of findings and final attachments. Over runs under keys
  without a probe type: the quiet before closing. `PolicyKeys` proves for healthy runs of the engine exactly under
  which keys and restarts these hold. That an alarm ends rests on severities of at least the close threshold, 3;
  both detectors give at least 4.
- **Routing and recovery** (`MonitorFold`, `Routing`, `Recovery`, `Replay`): one machine for the router, the
  workers, their batches, the baseline rows, acknowledgements and crashes. Any interleaving is a sequential fold; no
  sample enters a baseline twice; replay in order gives the crash-free baseline exactly if the rows have what was
  acknowledged.
- **Detectors** (`Ewma`, `BetaBinomial`, `LossTails`, `Detectors`): the online mean and variance are the batch ones;
  the beta-binomial tail is a probability, by the identity of Chu and Vandermonde, and moves with the baseline as it
  should. `Detectors` puts both into the machine: whatever crashes, a stored baseline is the moving average, or the
  totals, of the right column of samples of its series.
- **Scamper client** (`ScamperFraming`, `ScamperProtocol`): framing reads back what was printed, on any bytes, and
  reads every other line as its grammar says; no channel gets two values or another command's.
- **STAMP** (`StampTime`, `StampPacket`, `StampSession`): the timestamps of section 6 of RFC 5905, the packets of
  sections 4.2.1 and 4.3.1 of RFC 8762, the error estimate of section 4.1.2 of RFC 4656, and a session of sender and
  reflector over a lossy network.
- **Agent supervisor** (`TaskSupervisor`), **trace links and fingerprints** (`TraceLinks`, `TraceFingerprint`),
  **latency statistics and batch writing** (`LatencyStats`, `Flusher`), over `Sorting`, `Sequences`, `Reals`, `Text`
  and `Options`.

`dafny verify dfyconfig.toml` checks everything.

## How the code is read

- Floating point is exact real arithmetic. Times in Argus are real seconds since Go's zero time, so the zero
  `time.Time` is 0; times in STAMP are whole nanoseconds since the Unix epoch.
- The database is a value; a call to it succeeds or has no effect, and each step says which of its calls
  fail. Row ids are row positions. Inserting a finding and applying it is one step.
- Map iteration takes any order, and sorting promises a sorted permutation and nothing else.
- Square root, decimal logarithm and the gamma function are parameters with the properties that are needed:
  the non-negative root; antitone and 4 at 0.0001; 1 at 1, positive on positive arguments, with the
  recurrence gamma(x + 1) = x gamma(x).
- Concurrent code is a machine whose steps are the parts done under one lock or by one goroutine; a
  theorem about it covers every sequence of steps. A step that is not possible changes nothing.

## Findings

- *Sweep and worker use different keys.* The sweep keys the states it loads without a probe type
  (services/argus/policy_engine.go:131-137) while the worker's keys have one (services/argus/worker.go:127-134),
  so one row can have two states in memory. An event then closes without its quiet period, with no call failing and
  no restart: `PolicyKeys.TypedRunBreaksPromise` has the run, and `PromiseHoldsIffUntyped` proves that the quiet holds
  on all healthy runs of the engine exactly if the reports' keys carry no probe type. After a restart a series can
  have two open events and a finding can move from one to the other: `TypedRestartBreaksStructure` has the run, and
  `StructureHoldsIff` and `AttachmentIsFinalIff` prove that neither happens on any healthy run exactly if the keys
  carry no probe type or the process is not restarted. Without restarts both hold under typed keys whatever calls
  fail, and so does the conservation of findings. The lifetime of an event, the edge that opens it and the end of an
  alarm are proved for each state under any keys.
- *A restart can lose an open event.* If the row does not have the open event and the state's pending findings when
  the process stops, the structure breaks: `PolicyRuns.RestartKeepsStructureIff` is exact, and
  `PolicyRuns.UnsavedEventIsLost` has the run, in which a failed save and a restart leave an event open that neither
  a state nor the row holds. `PolicyQuiet.RestartKeepsCalmIff` is the exact condition for the quiet before closing.
- *A finding older than the last sweep can miss the edge.* The sweep uses the wall clock and a finding
  its own time, and a negative elapsed time raises the score. `LeakyBucket.CrossingIsMissedIff` gives the exact
  condition. The theorems about scores and event times therefore ask for non-decreasing times.
- *A failed opening is not retried.* `PolicyScores.FailedOpeningIsNotRetried` has the run, and
  `PolicyScores.EdgeIsLevelIff` says exactly when the edge is missed.
- *An alarm below the close threshold never ends.* `PolicyScores.AlarmEndsIff` is exact, and
  `PolicyScores.FaintAlarmIsStuck` has a run that gets there: a finding of severity 0.5 while an event recovers. The
  two deployed detectors report severities of at least 4 and cannot produce it (`PolicyScores.EveryStateIsAudible`).
- *A failed baseline save is acknowledged.* `Replay.FailedSaveLosesTheSample`. `Recovery.RowLagsIff` says exactly
  when a row is behind, and `Replay.ReplayGivesCrashFreeBaseline` that only this spoils a replay.
- *Ping and STAMP port 0 share a baseline row.* `Routing.AloneIff` says exactly which monitors do.
- *The STAMP sender does not compare sequence numbers*, contrary to its comment, and as it reuses the number
  of a lost packet, comparing them would not detect a late reply: `StampSession.LateReplyHasTheRightNumber`.
- *Hops with the same TTL and different addresses make a path ambiguous.* `TraceLinks.AddressesAreUniqueIff` has
  both directions for the addresses on the path, `TraceLinks.PathIsUniqueIff` for the path with its round-trip
  times; `TraceFingerprint.ClashingTtlsAreAmbiguous` has three hops with two fingerprints. Hops that share a TTL
  and an address leave the fingerprint as it is.
- *A reused scamper id misdelivers.* `ScamperProtocol.ReusedIdMisdelivers`, `ScamperProtocol.DroppedForGood`.

## Model

| member | source | states |
|---|---|---|
| LeakyBucket.LeakBounds | services/argus/leaky_bucket.go:54-63 | With time going forward the score neither rises nor falls below zero, and loses at most decay times the elapsed time. |
| LeakyBucket.LeakComposes | services/argus/leaky_bucket.go:54-63 | Decaying in two steps is decaying in one. |
| LeakyBucket.UpdatesSay | services/argus/leaky_bucket.go:37-63 | A finding adds the size of its value to the leaked score and can cross only the open threshold, upwards; decay adds nothing and can cross only the close threshold, downwards; both are stamped with their time. |
| LeakyBucket.ScoreIsBestSuffix | services/argus/leaky_bucket.go:38-51 | After any non-decreasing sequence of findings the score is the maximum over suffixes of their summed severities minus decay times the time since the suffix began. |
| LeakyBucket.TicksAreInvisible | services/argus/leaky_bucket.go:38-63 | Any number of decay steps between findings changes no later score and no crossing flag. |
| LeakyBucket.CrossingIsMissedIff | services/argus/leaky_bucket.go:38-51 | A finding that takes a low score over the threshold fails to flag it exactly if it is older than the last update by enough to lift the score on its own. |
| LeakyBucket.LateFindingMissesTheEdge | services/argus/leaky_bucket.go:38-51 | With the deployed thresholds, a finding 20 seconds late raises the score to twice the threshold without a crossing. |
| PolicyModel.PeakSeverity | services/argus/policy_engine.go:407-412 | The greatest of the trigger's severity and the known severities of the pending findings. |
| PolicyEngineObject.FindPeak | services/argus/policy_engine.go:407-412 | The loop finds that maximum. |
| PolicyEngineObject.AttachPending | services/argus/policy_engine.go:430-447 | The loop attaches every pending finding, or reports failure where an attachment fails. |
| PolicyEngineObject.OpenEvent | services/argus/policy_engine.go:398-468 | The transaction opens the event, attaches all pending findings and moves the state to firing, or changes nothing at all. What the event then says is PolicyOutcomes.OpenedEventSaysAll. |
| PolicyEngineObject.SaveState | services/argus/policy_engine.go:483-523 | The row becomes the state, or stays. |
| PolicyEngineObject.ApplyToState | services/argus/policy_engine.go:325-393 | A finding's effect on a loaded state and the tables, in each status and under each failure. |
| PolicyEngineObject.SweepState | services/argus/policy_engine.go:177-220 | A sweep's effect on one state and the tables, in each status and under each failure. What that effect is, PolicyOutcomes.SweepOutcome says for each status. |
| PolicyEngineObject.PolicyEngine.Report | services/argus/worker.go:200-210 | Inserts, then applies only what was inserted; only this key's state and this series' tables change. |
| PolicyEngineObject.PolicyEngine.ApplyFinding | services/argus/policy_engine.go:261-393 | Loads the state if it is not in memory, applies the finding, keeps every other state. |
| PolicyEngineObject.PolicyEngine.LoadRows | services/argus/policy_engine.go:130-174 | Loads exactly the rows that are not clean and have no state under the sweep's key. |
| PolicyEngineObject.PolicyEngine.VisitState | services/argus/policy_engine.go:177-220 | Updates one state and its series' tables, and says whether the sweep goes on. |
| PolicyEngineObject.PolicyEngine.Sweep | services/argus/policy_engine.go:120-223 | Visits every state once in some order, up to the first event that cannot be closed. |
| PolicyEngineObject.StoppedForGood | services/argus/policy_engine.go:204-207 | After a failed close, the rest of the order has no effect. |
| PolicyRuns.EveryStateIsPlaced | services/argus/policy_engine.go:177-223 | On every run whatever, under any keys: each in-memory state and the row hold the id of an existing event iff firing or recovering, and pending findings iff watching. |
| PolicyRuns.RestartKeepsStructureIff | services/argus/policy_engine.go:483-523 | A restart keeps the invariant below exactly if the row, or its absence, has the pending findings of the reported state and the open event. |
| PolicyRuns.EveryRunIsStructured | services/argus/policy_engine.go:177-223 | Over every run that reports a series under one key, with a probe type or without, and whose restarts find open event and pending findings saved, whatever else fails: at most one event is open and it is the held one, and each applied finding is exactly one of pending, attached to a known event, expired or refused; without a probe type the held event is open. |
| PolicyRuns.RunsHaveOneOpenEvent | services/argus/policy_engine.go:398-468 | On such runs a series has at most one open event. |
| PolicyRuns.UnsavedEventIsLost | services/argus/policy_engine.go:483-523 | If the save after an opening fails and the process restarts, an event is open that neither a state nor the row holds. |
| PolicyRuns.AttachmentIsFinal | services/argus/policy_engine.go:470-481 | On such runs a finding once attached stays attached to the same event. |
| PolicyRuns.EachFindingAppliesOnce | services/argus/db/queries.sql.go:157-163 | Over any run, restarts, redelivery and failures included, no two findings of a series with the same time reach ApplyFinding. |
| PolicyTimes.EveryStateLives | services/argus/policy_engine.go:192-213 | On every run forward in time, under any keys and failures, each in-memory state and the row keep the relation between score, opening time and last change that bounds an event's life. |
| PolicyTimes.ClosedEventsLastedLongEnough | services/argus/policy_engine.go:192-213 | On every run forward in time, under any keys and failures, an event that closes lasted longer than (open - close) / decay plus the quiet period, however it went between firing and recovering. |
| PolicyQuiet.RestartKeepsCalmIff | services/argus/policy_engine.go:483-523 | A restart keeps the invariant below exactly if the event the row holds is open and none of its findings is later than the recovery in the row. |
| PolicyQuiet.LateFindingEndsInQuiet | services/argus/policy_engine.go:197-213 | Where a finding is later than the recovery in the row, a sweep of that state can close the event inside its quiet period. |
| PolicyQuiet.EveryRunIsCalm | services/argus/policy_engine.go:197-213 | On runs forward in time under keys without a probe type, whose restarts meet that condition, whatever calls fail, the held event is open and none of its findings is later than the start of its recovery. |
| PolicyQuiet.ClosedEventsWereQuiet | services/argus/policy_engine.go:197-213 | On such runs no finding attached to a closed event falls into its final quiet period. |
| PolicyScores.EveryStateIsQuiet | services/argus/policy_engine.go:325-360 | On runs forward in time in which openings and attachments succeed, under any keys, a clean or watching state is below the open threshold and a recovering one below the close threshold. |
| PolicyScores.EdgeIsLevel | services/argus/policy_engine.go:325-360 | On such runs, at a finding under any key an event opens iff the state it works on has none open and the new score reaches the threshold: the edge trigger misses nothing. |
| PolicyScores.EdgeIsLevelIff | services/argus/policy_engine.go:325-360 | On any run, that rule holds at a finding iff not (no event is open and the score leaked to the finding's time is already at the threshold). |
| PolicyScores.FailedOpeningIsNotRetried | services/argus/policy_engine.go:398-468 | If the opening transaction fails at its commit, the next finding, also over the threshold, opens nothing. |
| PolicyScores.EveryStateIsAudible | services/argus/policy_engine.go:325-393 | If all severities reach the close threshold, a firing state's score does, on every run whatever fails and whatever the clocks do. |
| PolicyScores.DueNeverSlips | services/argus/policy_engine.go:177-213 | Under regular sweeps and no findings, the time by which a state will be clean never moves later. |
| PolicyScores.SweepsClear | services/argus/policy_engine.go:177-213 | Regular sweeps clean a state, in any status, by that time. |
| PolicyScores.SilentAlarmIsStuck | services/argus/policy_engine.go:192-196 | A firing state below the close threshold stays firing under any sweeps, since it never crosses it. |
| PolicyScores.AlarmEndsIff | services/argus/policy_engine.go:192-213 | After (score - close) / decay plus the quiet period plus two sweep gaps, a firing state is clean iff its score was at least the close threshold. |
| PolicyScores.StateIsSwept | services/argus/policy_engine.go:177-220 | A state that gets no finding under its key and no restart is what the sweeps that reach it make of it, whatever happens under other keys. |
| PolicyScores.EveryStateClears | services/argus/policy_engine.go:177-213 | After any run forward in time with severities of at least the close threshold, under any keys and failures, an in-memory state in any status is clean once regular sweeps reach that time. |
| PolicyScores.FaintRunFires | services/argus/policy_engine.go:372-384 | A finding of severity 0.5 while an event recovers makes the state fire below the close threshold. |
| PolicyScores.FaintAlarmIsStuck | services/argus/policy_engine.go:192-196 | After that run the state stays firing under any sweeps. |
| PolicyScores.FiringEndsInTime | services/argus/policy_engine.go:192-213 | After a run forward in time with severities of at least the close threshold, under any keys and failures, a firing state is clean within (score - close) / decay plus the quiet period plus two sweep gaps. |
| PolicyOutcomes.SweepOutcome | services/argus/policy_engine.go:177-220 | A sweep takes a watching state past its confirm window to clean, a firing one whose score falls below the close threshold to recovering, a recovering one past its quiet period to clean unless the close fails, and no other; a change is stamped with the sweep's time; a state that stops watching has score zero as of that time and nothing pending, and any other score is leaked to that time. |
| PolicyOutcomes.SweepClosesOnly | services/argus/policy_engine.go:197-213 | It closes the event of a state that leaves recovery, at its own time, and changes no finding and no other event. |
| PolicyOutcomes.FindingRaisesScore | services/argus/policy_engine.go:325-393 | In every status and under every failure a finding raises the leaked score by its severity without its sign, and a change of status is stamped with its time. |
| PolicyOutcomes.FindingOutcome | services/argus/policy_engine.go:325-393 | A state without an event opens one iff the score crosses the open threshold and the transaction goes through, else it watches; one with an event fires and has the finding attached, unless that fails; no other event changes. |
| PolicyOutcomes.FindingIsSavedIff | services/argus/policy_engine.go:325-393 | A report succeeds iff none of the calls it makes fails; then the row has every field of the state, else it is as before. |
| PolicyOutcomes.SweepIsSavedIff | services/argus/policy_engine.go:215-220 | After a visit the row has every field of the state, unless the save fails or the sweep ended there. |
| PolicyOutcomes.SavedReadsBack | services/argus/policy_engine.go:483-523 | A saved state is read back in every field, but for the severities of its pending findings, which are unknown. |
| PolicyOutcomes.SweepLoadsIff | services/argus/policy_engine.go:130-174 | The sweep adds a state exactly for the rows that are watching, firing or recovering and have none under the sweep's key, as the row says, and leaves all others and the tables alone. |
| PolicyOutcomes.ExpiredStartsAfresh | services/argus/policy_engine.go:182-191 | On every run forward in time, under any keys and failures: after a sweep has ended a watch, the next finding under that key, however much later, without a restart between, leaves a score of exactly its own severity, and if the transaction does not fail opens an event iff that reaches the open threshold. |
| PolicyOutcomes.OpenedEventSaysAll | services/argus/policy_engine.go:398-468 | On runs that keep the structure, an opened event is open since the trigger's time; the findings attached to it are exactly the trigger and those that waited; its count is their number; its peak severity is that of one of them and no less than the trigger's or any whose severity the process knows. |
| PolicyOutcomes.OpenedEventHasPeak | services/argus/policy_engine.go:407-421 | Without restarts the peak severity is exactly the greatest severity stored with the findings attached to the event. |
| PolicyProduct.EngineIsProduct | services/argus/policy_engine.go:120-223 | For every series, every run of the whole engine, with any sweep order, is a run of that series alone. |
| PolicyProduct.EngineIsStructured | services/argus/policy_engine.go:120-393 | One open event and conservation hold of every series of the engine that is reported under one key, with a probe type or without, if restarts find its duties saved. |
| PolicyProduct.EngineAttachmentsStay | services/argus/policy_engine.go:470-481 | Of such a series every finding stays with its event. |
| PolicyProduct.EngineEventsLastLongEnough | services/argus/policy_engine.go:192-213 | The event lifetime bound holds of every event in the engine's database, on every run forward in time. |
| PolicyProduct.EngineEventsWereQuiet | services/argus/policy_engine.go:197-213 | The final quiet period holds of every event in the engine's database, under keys without a probe type. |
| PolicyProduct.EngineStateIsSwept | services/argus/policy_engine.go:176-223 | While other keys and other series report and fail as they like, a state of the engine is what the engine's sweeps make of it. |
| PolicyProduct.EngineFiringEndsInTime | services/argus/policy_engine.go:192-213 | The alarm bound holds of each firing state of the engine while other keys and other series go on reporting and failing. |
| PolicyProduct.SweepLoadsRows | services/argus/policy_engine.go:130-174 | A row that is not clean has a state in memory after any sweep that lists the rows, also after a restart. |
| PolicyKeys.UntypedRunsAreSound | services/argus/policy_engine.go:131-142 | If keys carry no probe type, restarts on a healthy run find open event and pending findings saved. |
| PolicyKeys.UntypedRunsArePunctual | services/argus/policy_engine.go:131-142 | And, forward in time, a recovery no earlier than the findings of its event. |
| PolicyKeys.UntypedRunsAreQuiet | services/argus/policy_engine.go:197-213 | On such runs no finding falls into the final quiet period of a closed event. |
| PolicyKeys.HealthyRunHasOneOpenEvent | services/argus/policy_engine.go:131-142 | On a healthy run of the engine whose keys carry no probe type, or that has no restart, every series has at most one open event. |
| PolicyKeys.TypedRunBreaksPromise | services/argus/worker.go:127-134 | With any probe type in the key, a run of the engine without failure or restart closes an event on a finding inside its quiet period. |
| PolicyKeys.PromiseHoldsIffUntyped | services/argus/policy_engine.go:131-142 | The promise holds on all healthy runs of the engine, with restarts or without, iff the reports' keys carry no probe type. |
| PolicyKeys.TypedRestartBreaksStructure | services/argus/worker.go:127-134 | With any probe type in the key, a run of the engine with whole sweeps, no failed calls and one restart leaves two events open and moves a finding from one to the other. |
| PolicyKeys.AttachmentIsFinalIff | services/argus/policy_engine.go:131-142 | Attached findings stay with their event on all healthy runs of the engine iff the reports' keys carry no probe type or there is no restart. |
| PolicyKeys.StructureHoldsIff | services/argus/policy_engine.go:131-142 | A series has at most one open event on all healthy runs of the engine iff the reports' keys carry no probe type or there is no restart. |
| MonitorFold.LiveMonitor.FoldBatch | services/argus/worker.go:166-198 | The loop makes the monitor the fold of the batch and reports its findings; the row is written iff something was folded and the save succeeds. |
| MonitorFold.FoldSplits | services/argus/worker.go:166-198 | Any split of samples into batches gives the same monitor. |
| MonitorFold.CursorNeverFallsBack | services/argus/worker.go:193-197 | The cursor never decreases, and if it has not moved nothing has changed. |
| MonitorFold.ReportsAreOrdered | services/argus/worker.go:169-191 | Findings are reported at strictly increasing times, all after the old cursor and up to the new one. |
| MonitorFold.ReportedIff | services/argus/worker.go:169-191 | What is reported is exactly what the detector finds at the samples that are later than the cursor before them and readable, each judged by the state the samples before it left. |
| MonitorFold.RedeliveryIsAbsorbed | services/argus/worker.go:170-172 | Folding again, in any order, samples that were folded before changes nothing. |
| MonitorFold.SettledChangeNothing | services/argus/worker.go:170-185 | Samples at or before the cursor, or unreadable, change nothing. |
| Routing.Router.Dispatch | services/argus/router.go:61-94 | An unreadable, unknown or undecodable message is terminated; any other is appended to the inbox of its series, and a series gets one worker, ever. |
| Routing.AcceptedIff | services/argus/router.go:61-94 | A message is accepted iff it decodes and its probe is ping, stamp or trace, with its own agent, target, time and metrics. |
| Routing.SameSeriesIff | services/argus/router.go:96-107 | Two messages meet in one inbox iff they agree in agent, probe and target, for STAMP also in port, for traces also in source. |
| Routing.DispatchQueuesOrAcks | services/argus/router.go:61-94 | In the machine a refused message is acknowledged and changes nothing else; any other is queued last in its series' inbox, and nothing is acknowledged or stored. |
| Routing.SaveWritesIff | services/argus/worker.go:193-197 | A baseline is written iff its cursor moved since the batch was taken and the save succeeds, under its agent, target, port, metric and detector. |
| Routing.BatchBeginsAndEnds | services/argus/worker.go:71-112 | A batch is the front of the inbox and starts at the cursors the monitors have; when all of them are through with it, its messages are acknowledged, but for acknowledgements that are lost. |
| Routing.Inbox.Drain | services/argus/worker.go:102-112 | The batch is the first item, everything queued behind it and what comes in meanwhile, in order; it ends at the first receive that finds nothing. |
| Routing.AloneIff | services/argus/registry.go:34-139 | A monitor shares its baseline row iff it is the round-trip monitor of a ping series or of STAMP port 0 and the other of the two occurs for the same agent and target. |
| Routing.EveryRunTracks | services/argus/worker.go:71-112 | In every state of every run, crashes and failures included, each monitor has folded exactly what was dispatched to its series since the last crash, but for the queue. |
| Routing.ShardingIsSequential | services/argus/router.go:61-94 | For every interleaving of router and workers, every batch size and any failed save, an emptied worker's monitors are a one-at-a-time fold of the series' dispatched samples. |
| Recovery.EachSampleEntersOnce | services/argus/worker.go:150-198 | Over any run with crashes, failures, redelivery and republication in any order, the stored baseline is the initial one with samples of its series entered at strictly increasing times. |
| Recovery.EveryRowIsPast | services/argus/worker.go:166-198 | In every state of every run, whatever crashed or failed, the stored row is the monitor after some of the deliveries since the last crash. |
| Recovery.InOrderIsCrashFree | services/argus/worker.go:166-198 | Deliveries that may repeat but not overtake bring a baseline to the one of an undisturbed run. |
| Recovery.RowLagsIff | services/argus/worker.go:86-95 | In every state of every run the row is behind the monitor as of the last acknowledged batch iff an acknowledged sample is readable and later than the stored cursor. |
| Recovery.UncoveredIsLost | services/argus/worker.go:86-95 | A row that lacks such a sample of the log is not the baseline of an undisturbed run that includes it. |
| Replay.EveryRunResumes | services/argus/worker.go:86-95 | In every state of a run with ordered redelivery whose crashes find the acknowledged samples in the row, the row grew in order out of an undisturbed baseline. |
| Replay.ReplayGivesCrashFreeBaseline | services/argus/worker.go:86-95 | On such runs, when all messages of a series have arrived, the stored baseline is the crash-free one iff it has what was acknowledged or delivered, however often the run crashed. |
| Replay.SavedRunsAreRecoverable | services/argus/worker.go:150-198 | If loads and saves succeed, the row has whatever was acknowledged, in every state. |
| Replay.SavedRunsGiveCrashFreeBaseline | services/argus/worker.go:86-95 | So with successful loads and saves an emptied inbox leaves the crash-free baseline. |
| Replay.FailedSaveLosesTheSample | services/argus/worker.go:193-197 | If a save fails, the batch is acknowledged all the same and a crash loses the sample. |
| Ewma.Baseline.Step | services/argus/ewma.go:61-104 | Updates mean and variance, alarms iff past the warm-up and the deviation reaches the threshold, with severity min(12, score), at least the threshold. |
| Ewma.AlarmsIff | services/argus/ewma.go:71-82 | That is iff there are samples, as many as the warm-up asks for, and the distance from the mean is at least the threshold times the root of variance plus epsilon. |
| Ewma.ScoreIsDeviation | services/argus/ewma.go:71-75 | Comparing the score with the threshold is comparing squared deviation with threshold squared times variance plus epsilon. |
| Ewma.WeightsAddUp | services/argus/ewma.go:84-86 | The exponential weights of any history add up to one. |
| Ewma.OnlineIsBatch | services/argus/ewma.go:61-90 | For any history and alpha the online mean is the exponentially weighted mean and the online variance the weighted second moment minus its square; count and time are those of the history. |
| Ewma.SpreadIsBounded | services/argus/ewma.go:84-86 | If all samples lie in [lo, hi] then so does the mean, and the variance is non-negative and at most (hi - mean)(mean - lo). |
| Ewma.NoiseRaisesNoAlarm | services/argus/ewma.go:71-82 | Samples whose range is below threshold times the square root of epsilon never raise an alarm. |
| Ewma.JumpRaisesAlarm | services/argus/ewma.go:71-82 | After the warm-up, a sample outside the range of all before it by at least threshold times the square root of range squared / 4 plus epsilon raises an alarm, whatever the order of the samples. |
| BetaBinomial.Vandermonde | services/argus/betab.go:115-123 | Rising-factorial masses over 0..n sum to the rising factorial of the total, for all parameters. |
| BetaBinomial.TailOfAll | services/argus/betab.go:109-111 | The tail from zero is exactly one, so the shortcut agrees with the sum. |
| BetaBinomial.TailDecreases | services/argus/betab.go:108-128 | The tail strictly decreases in the count, down to zero past n. |
| BetaBinomial.TailBounds | services/argus/betab.go:124-126 | The tail lies in [0, 1], so the clamp is never needed. |
| BetaBinomial.UpperTail | services/argus/betab.go:108-128 | The shortcuts, loop and clamp compute that tail for every count. |
| BetaBinomial.ChooseIsQuotient | services/argus/betab.go:137-142 | Binomial coefficients are the quotients of factorials that the code takes through log-gamma. |
| BetaBinomial.GammaRises | services/argus/betab.go:130-135 | Ratios of gamma values are rising factorials. |
| BetaBinomial.TermIsProbability | services/argus/betab.go:115-142 | Each term of the sum, written with gamma functions, is the beta-binomial probability. |
| BetaBinomial.LossBaseline.Step | services/argus/betab.go:64-105 | Judges a sample, with any counts, against the baseline before it: an alarm iff packets were sent and lost, the baseline has the warm-up's packets and the tail is at most the threshold. Then it counts the lost and the received. An alarm's tail, rate and severity are those of the sample, and with the deployed threshold the severity is at least 4. |
| BetaBinomial.MoreLossTripsToo | services/argus/betab.go:74-81 | If a loss count trips the detector, any larger count up to the packets sent does, with no smaller severity. |
| LossTails.OnePacketTail | services/argus/betab.go:71-81 | One lost packet out of one has the tail (lost + 1/2) / (lost + received + 1). |
| LossTails.TailGrowsWithLost | services/argus/betab.go:108-128 | One more in the first parameter makes the tail strictly larger. |
| LossTails.TailFallsWithReceived | services/argus/betab.go:108-128 | One more in the second parameter makes the tail strictly smaller. |
| LossTails.LostBaselineGrows | services/argus/betab.go:71-81 | The more packets the baseline has lost, the larger the tail of the same sample. |
| LossTails.ReceivedBaselineFalls | services/argus/betab.go:71-81 | The more packets it has received, the smaller. |
| LossTails.CleanerBaselineTripsToo | services/argus/betab.go:74-81 | What trips against a baseline trips against one with no more lost and no fewer received and at least as many packets in all, with no larger tail and no smaller severity. |
| Detectors.RefusedIff | services/argus/registry.go:34-107 | A registered metric cannot be read iff the row is another probe's, whatever the state. |
| Detectors.DetectorsFailByRow | services/argus/ewma.go:37-58 | For every metric, whether a sample can be folded does not depend on the state. |
| Detectors.StoredAverage | services/argus/worker.go:166-198 | Over any run, crashes and failures included, a stored latency baseline is the moving average of samples of its series, each taken in once and in order of time, read from the column the metric names: forward, backward or round trip. |
| Detectors.StoredMeanIsWithin | services/argus/ewma.go:84-86 | Over any run a stored mean lies within the bounds of the readings in the log, and the variance is non-negative and at most (hi - mean)(mean - lo). |
| Detectors.StoredForwardMean | services/argus/registry.go:37-47 | If all forward delays of a STAMP series lie in [lo, hi], so does the stored forward mean, whatever the other columns hold, and the variance is at most (hi - mean)(mean - lo). |
| Detectors.StoredBackwardMean | services/argus/registry.go:48-58 | The same of backward delays. |
| Detectors.StoredRoundTripMean | services/argus/registry.go:34-107 | The same of round trips, of ping and of STAMP. |
| Detectors.StoredCounts | services/argus/betab.go:98-102 | Over any run stored loss counts are the sums of sent minus received, where that is not negative, and of received, over rows of the series, each taken in once. |
| Detectors.DeployedReplayIsCrashFree | services/argus/registry.go:34-107 | The replay theorem with these detectors, without any assumption about what they refuse. |
| ScamperFraming.FrameReadsBack | libs/scamper-client/client.go:180-240 | A printed frame in front of any bytes is read back and reading goes on right behind it. |
| ScamperFraming.FramingRoundTrip | libs/scamper-client/client.go:159-240 | Any sequence of OK, ERR, MORE and DATA frames is read back exactly, whatever bytes the payloads and the rest of the stream hold. |
| ScamperFraming.CutPayloadIsDropped | libs/scamper-client/client.go:236-240 | A stream cut inside a payload gives the frames before it and nothing of the cut one. |
| ScamperFraming.HeaderIff | libs/scamper-client/client.go:228-234 | A DATA line is well-formed iff it is the tag, spaces, an optional sign and digits that fit 64 bits, spaces, a word, and then nothing or a space and anything; its length and id are those. |
| ScamperFraming.DataLineIsRead | libs/scamper-client/client.go:228-244 | Such a line takes exactly as many bytes as it says under its id, and reading goes on behind them; a length that is negative or more than there is ends the input. |
| ScamperFraming.OtherLinesAreSkipped | libs/scamper-client/client.go:228-234 | Any other DATA line, and a line with none of the four tags, is skipped as if it were not there. |
| ScamperFraming.OkNames | libs/scamper-client/client.go:198-201 | The id of an OK line is the first word behind its spaces, whatever follows it. |
| ScamperFraming.OkNamesNothing | libs/scamper-client/client.go:198-201 | Without a space behind the tag it is empty. |
| ScamperFraming.OkLineIsRead | libs/scamper-client/client.go:198-226 | Every line with the tag OK is read with that id. |
| ScamperProtocol.EachChannelHearsOnce | libs/scamper-client/client.go:180-260 | On any stream, with commands sent at any time, no channel gets a second value, so the reader never blocks on its one-value channels. |
| ScamperProtocol.NeverMisdelivers | libs/scamper-client/client.go:134-260 | If the daemon replies in order and no id is that of an unfinished command, a value is its own command's result, an empty one means acknowledged without an id, a refused command hears nothing, and a read-out wire leaves nothing undelivered. |
| ScamperProtocol.ReusedIdMisdelivers | libs/scamper-client/client.go:214-216 | If an OK reuses the id of an unfinished command, the next data under it goes to the later command and the earlier channel is dropped. |
| ScamperProtocol.DroppedForGood | libs/scamper-client/client.go:180-260 | A dropped channel never hears anything again, whatever follows. |
| ScamperProtocol.WireReadsBack | libs/scamper-client/client.go:159-240 | In every state of every run, the bytes on the wire parse to the frames put there. |
| ScamperProtocol.ScamperClient.SendCommand | libs/scamper-client/client.go:134-147 | Queues a new channel, unless the write fails. |
| ScamperProtocol.ScamperClient.ReadOne | libs/scamper-client/client.go:159-261 | Consumes one frame or skipped line and has its effect on the queue, the waiters and the channels. |
| ScamperProtocol.ScamperClient.StartRead | libs/scamper-client/client.go:149-263 | The whole loop has the effect of the frames of its input, in order. |
| StampTime.RoundTrip | libs/stamp/timestamp.go:55-74 | In the first NTP era, there and back is the same nanosecond iff the nanoseconds are a multiple of 5^9, otherwise exactly one less, and never another second. |
| StampTime.RoundTripIffInEra | libs/stamp/timestamp.go:55-74 | There and back is within a nanosecond iff the time is in the first era. |
| StampTime.OrderPreserving | libs/stamp/timestamp.go:63-74 | Later times have strictly later timestamps. |
| StampTime.EpochsOnTheWire | libs/stamp/timestamp.go:8-10 | 1900 is zero on the wire, 1970 is 2208988800, 2036 is zero again. |
| StampPacket.EncodeSender | libs/stamp/packet.go:20-34 | The 44 octets spell the number, the timestamp and the estimate, most significant octet first, at octets 0, 4, 8 and 12, and are zero from 14 on. |
| StampPacket.EncodeReflector | libs/stamp/packet.go:76-105 | The 44 octets spell the fields, most significant octet first, at octets 0, 4, 8, 12, 16, 20, 24, 28, 32, 36 and 40, and are zero at 14, 15, 38, 39 and from 41 on. |
| StampPacket.SenderRoundTrip | libs/stamp/packet.go:20-58 | A packet is read back from its octets, whatever follows them. |
| StampPacket.SenderRewrites | libs/stamp/packet.go:20-58 | Octets are written back as read iff their padding is zero. |
| StampPacket.SenderReads | libs/stamp/packet.go:37-58 | Exactly datagrams of at least 44 octets are decoded, into what the octets at the fields' places spell, whatever the padding. |
| StampPacket.ReflectorRoundTrip | libs/stamp/packet.go:76-143 | A packet is read back from its octets, whatever follows them. |
| StampPacket.ReflectorRewrites | libs/stamp/packet.go:76-143 | Octets are written back as read iff their padding is zero. |
| StampPacket.ReflectorReads | libs/stamp/packet.go:108-143 | Exactly datagrams of at least 44 octets are decoded, into what the octets at the fields' places spell, whatever the padding. |
| StampPacket.EncodeEstimate | libs/stamp/error_estimate.go:44-63 | The bits read back as the estimate with its Z bit clear and its scale cut to six bits: as the estimate itself iff the constructor accepts it. They are 0x8000 for S, plus 256 times that scale, plus the multiplier. |
| StampPacket.EstimateRoundTrip | libs/stamp/error_estimate.go:31-85 | An estimate survives encoding iff the constructor accepts it. |
| StampPacket.DecodedWeighs | libs/stamp/error_estimate.go:31-42 | A field is 0x8000 for S plus 0x4000 for Z plus 256 times the scale, which is below 64, plus the multiplier. |
| StampPacket.EstimateRewrites | libs/stamp/error_estimate.go:31-63 | A field is written back as read iff its Z bit is clear. |
| StampSession.Reflector.Reflect | libs/stamp/reflector.go:111-164 | A datagram of full length gets the reply that echoes it; the counter counts replies; a short one gets none. |
| StampSession.Sender.Send | libs/stamp/sender.go:98-156 | Sends its number and time, returns what comes back decoded, and counts successes only. |
| StampSession.ReplyEchoesItsCall | libs/stamp/reflector.go:141-152 | Through both codecs the reply carries the call's own number, time and estimate and the reflector's counter and times. |
| StampSession.RoundTripIsTrue | services/agent/executor_stamp_sender.go:96-125 | For every reflector clock offset the round trip is forward plus backward delay and within -1 to +2 ns of the true one, with the exact error of each delay. |
| StampSession.RoundTripBoundsAreReached | services/agent/executor_stamp_sender.go:114-116 | Both ends of the -1 to +2 ns range occur. |
| StampSession.CounterIsSuccesses | libs/stamp/sender.go:153-153 | Over any run the counter is the number of successes modulo 2^32. |
| StampSession.EveryProbeIsTrue | services/agent/executor_stamp_sender.go:63-136 | Over a run with any losses and no late reply, a probe is reported lost iff its packet or reply was, and every other has its own sending time and true delays. |
| StampSession.Execute | services/agent/executor_stamp_sender.go:49-146 | The loop makes that run with the requested number of packets, or 10, and counts replies; the loss is the part of them without one; it reports nothing iff it is cancelled before the last packet is due. |
| StampSession.LateReplyHasTheRightNumber | libs/stamp/sender.go:136-155 | A reply to a call that timed out has the next call's number; its echoed time differs iff the calls were made at different times. |
| TaskSupervisor.DesiredIsLast | services/agent/supervisor_tasks.go:13-16 | Every id listed is desired, as the last task listed with it. |
| TaskSupervisor.Supervisor.Set | services/agent/supervisor_tasks.go:11-20 | The loop builds that map and it replaces the desired one. |
| TaskSupervisor.Supervisor.FindUndesired | services/agent/supervisor_reconciler.go:12-19 | The running tasks nobody wants, each once. |
| TaskSupervisor.Supervisor.RemoveUndesired | services/agent/supervisor_reconciler.go:21-33 | Stops each of them once and forgets exactly them. |
| TaskSupervisor.Supervisor.EnsureTask | services/agent/supervisor_reconciler.go:39-59 | Starts a missing task, replaces one of another generation, leaves the rest. |
| TaskSupervisor.Supervisor.Reconcile | services/agent/supervisor_reconciler.go:8-60 | What runs is what is desired, in its generation; outdated handles are stopped once, no others are touched. |
| TaskSupervisor.ReconciledConverges | services/agent/supervisor_reconciler.go:8-60 | A reconciliation ends with the running ids and generations equal to the desired ones, and keeps every handle running and never stopped or stopped exactly once. |
| TaskSupervisor.UnchangedIsUntouched | services/agent/supervisor_reconciler.go:49-51 | A task with the same id and generation keeps its handle, unstopped. |
| TaskSupervisor.AllCallsConverge | services/agent/supervisor_tasks.go:11-24 | For any interleaving of concurrent calls, when all have returned what runs is what the last one set, and every handle ever started is running or was stopped exactly once. |
| Sorting.Sort | services/trace-processor/extract_links.go:60-62 | A sorted permutation, which is all that is relied on of the library's sort. |
| Sorting.SortedIsUnique | services/trace-processor/processor.go:344-344 | If no two elements tie, a bag of them has one sorted list. |
| TraceLinks.GroupByProbe | services/trace-processor/extract_links.go:34-55 | Each probe of the trace has a group: its hops, in order and as often as they occur. |
| TraceLinks.Dedup | services/trace-processor/extract_links.go:66-76 | The first hop of each TTL, by strictly rising TTL. |
| TraceLinks.WalkPath | services/trace-processor/extract_links.go:82-112 | Adds a link for each pair of neighbours whose key is new on the path. |
| TraceLinks.ExtractLinks | services/trace-processor/extract_links.go:33-116 | The links of one path for each probe, probe by probe in some order. |
| TraceLinks.EveryLinkJoinsNeighbours | services/trace-processor/extract_links.go:85-103 | Every link has a positive gap, joins two hops of one probe with none of its TTLs between them, and carries their addresses and difference in round trip. |
| TraceLinks.NoLinkRepeats | services/trace-processor/extract_links.go:105-109 | If hops that timed out have no address, no probe has two links with the same ends. |
| TraceLinks.PairIsLinkedIff | services/trace-processor/extract_links.go:105-111 | If hops that timed out have no address, two neighbours have a link with their ends iff the first two neighbours on the path with the same printed key have the same ends. |
| TraceLinks.EveryPairIsLinked | services/trace-processor/extract_links.go:105-111 | So if exactly the hops that timed out have no address and no address contains an arrow, every two neighbours have a link with their ends. |
| TraceLinks.PathIsUnique | services/trace-processor/extract_links.go:57-76 | If no two hops of a probe share a TTL, its path is determined by which hops there are. |
| TraceLinks.PathIsUniqueIff | services/trace-processor/extract_links.go:57-76 | Each probe has one possible path iff no two of its hops share a TTL. |
| TraceLinks.AddressesAreUniqueIff | services/trace-processor/extract_links.go:57-76 | The addresses on each probe's path are determined iff its hops with the same TTL agree in whether they responded and in their address. |
| TraceFingerprint.LinkFingerprint | services/trace-processor/processor.go:336-345 | The sorted pairs of responding ends, joined by commas. |
| TraceFingerprint.BeforeIsLexicographic | services/trace-processor/processor.go:344-344 | The order of the pairs is the lexicographic one. |
| TraceFingerprint.SameTextIff | services/trace-processor/processor.go:336-345 | If no address has a comma, two sets of links have the same text iff they have the same pairs, each as often. |
| TraceFingerprint.TextDeterminesPairs | services/trace-processor/processor.go:336-345 | If no address has a comma or an arrow either, the text determines how often each source and destination are linked. |
| TraceFingerprint.ThreeHopText | services/trace-processor/processor.go:336-345 | The links from a to b and from b to c, in either order, have the text a->b,b->c. |
| TraceFingerprint.FingerprintIsOrderIndependent | services/trace-processor/processor.go:336-345 | If hops of a probe with the same TTL agree in whether they responded and in their address, the text that is hashed is the same for every order of hops, every sort and every map order. |
| TraceFingerprint.ClashingTtlsAreAmbiguous | services/trace-processor/extract_links.go:57-76 | Two hops of one TTL with different addresses allow two different fingerprints for the same hops. |
| TraceFingerprint.CompressAsns | services/trace-processor/processor.go:311-326 | The loop builds the path of systems. |
| TraceFingerprint.MoreHopsSameSystems | services/trace-processor/processor.go:311-326 | Hops that are silent, unknown, outside any system or in the same system again do not change the path of systems, wherever they come. |
| TraceFingerprint.CompressedIsSystemPath | services/trace-processor/processor.go:311-326 | The path has no zero and no system twice in a row. |
| TraceFingerprint.SystemPathIsKept | services/trace-processor/processor.go:311-326 | A path of known systems without repetition is kept as it is. |
| LatencyStats.ComputeStats | services/ping-processor/processor.go:398-418 | No values give zeros. Otherwise, on the sorted values, the mean is the sum over the count and P50 and P95 divide the step around their rank in proportion to the rank's fraction, all cut toward zero. |
| LatencyStats.StatsAreOrderIndependent | services/ping-processor/processor.go:398-418 | They do not depend on the order of the values. |
| LatencyStats.StatsAreInRange | services/ping-processor/processor.go:398-435 | Least <= P50 <= P95 <= greatest, negative values included; the mean is within them and off by less than one from the exact one. |
| LatencyStats.PercentilesAreOrdered | services/stamp-processor/processor.go:420-435 | A higher percentile is no lower. |
| LatencyStats.PercentileIsBetween | services/stamp-processor/processor.go:420-435 | A percentile lies between the two values around its rank. |
| LatencyStats.WholeRankIsOrderStatistic | services/stamp-processor/processor.go:420-435 | Where the rank is whole it is the order statistic. |
| LatencyStats.PercentileDividesStep | services/stamp-processor/processor.go:420-435 | For a percentile k/d the rank's whole part is the quotient of k (n - 1) by d and its remainder over d is the part of the step to the next value that is added; the result is that value cut toward zero. |
| LatencyStats.WholeRanks | services/ping-processor/processor.go:398-435 | Of 2k + 1 values P50 is the one with k before it in order; of 20k + 1 values P95 is the one with 19k before it. |
| Flusher.BatchWriter.NakAll | services/ping-processor/processor.go:299-305 | Every message of the batch is returned, in order. |
| Flusher.BatchWriter.Flush | services/ping-processor/processor.go:249-297 | All rows are stored and all messages acknowledged, or nothing is stored and all are returned: the latter if beginning, inserting or committing fails. The batch is empty afterwards. |
| Flusher.BatchWriter.Receive | services/ping-processor/processor.go:227-247 | A message waits until there are 50, which are then flushed. |
| Flusher.BatchWriter.Tick | services/ping-processor/processor.go:227-247 | The ticker flushes whatever waits. |
| Flusher.TableHolds | services/ping-processor/processor.go:268-290 | The table is, message by message in order, a measurement row followed by its probe rows in order, each naming it, and nothing else. |
| Flusher.EveryMessageIsSettled | services/ping-processor/processor.go:227-305 | Over any run every message that arrived is waiting, acknowledged or returned exactly once, and the table holds, in order, the measurement of each acknowledged message with its probes behind it, and nothing else. |

## Left out

- PolicyRuns.EveryRunIsStructured: about one key for each series, as the worker uses, and restarts that find open event and pending findings saved, without which it fails, as shown.
- PolicyRuns.AttachmentIsFinal: about the same runs; after a restart that finds them unsaved a finding can move, as shown.
- PolicyQuiet.ClosedEventsWereQuiet: about keys without a probe type and restarts that keep the invariant; with typed keys it fails, as shown.
- Clocks that go backwards: the theorems on scores and event times need non-decreasing times; the exact failure is shown.
- A transaction that cannot begin: the code then calls the missing transaction, which ends the process.
- A crash inside a report or a sweep, other than as a failed save with a restart after it.
- Inserting and applying a finding are one step, although another series' step could come between them.
- STAMP series on port 0 share rows with ping in the policy tables as in the baselines; only the latter is modelled.
- LatencyStats.ComputeStats: sorts a copy, not in place, and its sum does not wrap at 64 bits.
- TraceLinks.ExtractLinks: groups and paths are values, not slices updated in place.
- BetaBinomial.LossBaseline.Step: not from a baseline of fewer than zero received packets, for which the distribution is not defined.
- Detectors: stored states are values, not JSON; states that do not parse are not modelled.
- TraceFingerprint.FingerprintIsOrderIndependent: on the text that is hashed, not on its SHA-256 hash; and in one direction only, since paths with different addresses can have the same set of pairs.
- StampSession.Execute: the length of the pause between packets.
- ScamperFraming.FramingRoundTrip: white space is the ASCII one, and a negative length, on which the code panics, ends the input.
- Floating-point rounding, 64-bit overflow of counters, JSON, UUID parsing, HMAC (not implemented in the code).
- NATS, Postgres, sockets, subprocesses, tickers and logging.
- The frequency detector, which the code does not implement, and configuration mapping, which copies fields.
- The processors' conversion of measurements to rows, address lookups and system lookups.

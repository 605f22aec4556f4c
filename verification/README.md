# Monitower: a verified model

Monitower simulates a small e-commerce pipeline (order, payment, fulfillment and
notification services joined by in-memory queues), writes metric rows from it, and
runs a monitor over those rows that turns anomalies into incidents. This project
models both halves and proves what they promise.

**The monitor** (`internal/monitor`) is modelled as it is written: classes with
mutable fields (`Window`, `Baselines`, `Correlator`, `IncidentStore`,
`ResolutionTracker`, `Poller`) whose loops are proved against functions on values.
`Monitor.TickStep` is one polling cycle as a relation on values, with its early
returns and database errors; `Poller.Tick` is proved to take exactly such steps
and keeps the run so far as a ghost history. `MonitorRuns` proves what holds of
every cycle and of every run.

**The simulator** (`internal/simulator`) runs concurrent goroutines, so it is an
interleaved transition system on values: every channel operation, atomic add and
mutex section is one step, every message goroutine has a program counter, and
fault contexts, dice and cancellation are free choices of the environment.
`Broker` has the queues with any number of queues, subscriptions and goroutines;
`Pipeline` adds the four services. The proofs keep double-entry books
(`BrokerLaws`, `Accounts`): one side is what a queue or meter shows, the other the
sum over goroutines, and each step moves both sides alike. Beside it, `Delivery`
and `Services` hold the program's own sequential code, a recursive `Send` and the
retry loop of a message goroutine, as classes proved to do what the steps do.
`Percentiles` sorts a copied array in place.

| file | holds |
|---|---|
| `Sequences`, `Sorting` | folds over sequences; sorting with unspecified ties |
| `Signals` | rows, signals, the static topology |
| `Statistics`, `Baseline`, `Detection` | window statistics, the sliding window, what the detectors compute |
| `Answers`, `Detectors` | what must fire and what is answered for it; the detectors' loops |
| `ActiveSignals`, `Correlation` | the active set, grouping, roots and blast radius |
| `Incidents`, `Resolution` | the incident table, the clean-streak tracker |
| `Monitor`, `CycleRules` | the polling cycle; the same cycle said by its rules |
| `MonitorRuns`, `Resolutions` | properties of cycles and runs; when incidents are resolved |
| `Series`, `Backlogs`, `IncidentHistory` | over runs: one active signal per series; incidents behind a dead-letter queue; the life of a timeline |
| `Spikes`, `DuplicateIncidents`, `StaleSamples` | the least spike that fires; a run to two incidents of one key; a run that keeps a sample too long |
| `Messages`, `Broker`, `BrokerLaws`, `BrokerRuns` | messages; queues as a transition system; their books; theorems |
| `Pipeline`, `PipelineLaws`, `Accounts` | services as a transition system; goroutine invariants; their books |
| `PipelineRuns`, `Quiescence` | theorems in every reachable state; conservation at rest |
| `Metrics`, `DeadLetters`, `FullDeadLetters` | what metric rows tell about messages and ticks; the queues nobody reads; a run that fills one |
| `Polls`, `Owners` | how much a tick takes; the monitor's static tables against what the simulator does |
| `Delivery`, `Services`, `Percentiles` | the sequential code of queues and services |
| `Outcomes` | what becomes of a message, in closed form |

Conventions. Time is in whole milliseconds and measurements are exact reals. A
standard deviation is never computed: thresholds compare squares, and a signal's
`score` is the signed square of the program's `Deviation`
(`Statistics.ThresholdsBySquares` and `Statistics.ScoreOrdersLikeDeviation` say
that nothing changes). Results over runs assume a clock (`MonitorRuns.Clocked`):
cycle times strictly increase, no row is dated after the cycle that reads it, and
every row names its service or queue.

Where the code and its documentation differ, the model follows the code:

- rows of the last 30 s are added to the baselines again on every cycle, before
  they are tested, so windows are neither sorted nor free of duplicates, samples
  can outstay the window's 60 s, and every tested value is part of its own baseline;
- a batch of events is matched against the active list read at its start, so two
  events with one key make two incidents, and one cycle can do that;
- starvation is never detected, and resolution asks for two clean checks, not for
  values within 1.5 standard deviations;
- after a failed reconcile the tracker checks an empty list and every streak
  restarts;
- stale signals are dropped even if an incident is open for them;
- the depth of a queue is not its number of messages, and can be negative;
- an order row can show more errors than requests;
- dead letters do not accumulate indefinitely (notification_service.go:13-15): a
  dead-letter queue takes 1000, and what is bound for it then hangs until the end.

## Model

| member | source | states |
|---|---|---|
| `Statistics.ThresholdsBySquares` | internal/monitor/anomaly.go:150-172 | for the true stddev s the square tests hold exactly when value > mean + c*s, or value < mean - c*s |
| `Statistics.ScoreIsSignedSquare` | internal/monitor/anomaly.go:237-242 | a score is the deviation times its magnitude, and 0 for a flat baseline |
| `Statistics.ScoreOrdersLikeDeviation` | internal/monitor/anomaly.go:176-180 | comparing two scores by magnitude is comparing the deviations by magnitude, across different baselines |
| `Statistics.MeanAndVariance` | internal/monitor/anomaly.go:46-64 | distances from the mean add up to 0, and squared distances to n times the variance |
| `Statistics.Cantelli` | internal/monitor/anomaly.go:46-64 | one-sided Chebyshev bound: k samples at distance t above the mean give k*(t^2+variance) <= n*variance |
| `Statistics.MaskingAbove` | internal/monitor/anomaly.go:150-164 | if k of n samples lie above mean + c*stddev then (c^2+1)*k < n |
| `Statistics.MaskingBeneath` | internal/monitor/anomaly.go:165-172 | the same below mean - c*stddev |
| `Statistics.MaskingBounds` | internal/monitor/anomaly.go:150-172 | beyond 3 sigma 10k < n, beyond 2 sigma on one side 5k < n |
| `Statistics.OwnBaselineNeedsEleven` | internal/monitor/anomaly.go:33-64 | a sample in its own window passes the 3-sigma test only with at least 11 samples and some spread |
| `Spikes.SpikeFires` | internal/monitor/anomaly.go:33-64 | eleven samples suffice: one above ten equal ones passes that test, its deviation then being the root of 10 |
| `Baseline.Window.Add` | internal/monitor/anomaly.go:36-44 | the window becomes the old one plus the sample, less exactly the stale prefix |
| `Baseline.Window.Stats` | internal/monitor/anomaly.go:47-64 | nothing below 10 samples, else the population mean and variance of the window |
| `Baseline.DropStaleKeeps` | internal/monitor/anomaly.go:38-43 | pruning never loses a sample that is not stale |
| `Baseline.PushAllIsSuffix` | internal/monitor/anomaly.go:36-44 | after any adds the window is a non-empty suffix of all samples, ends with the last and starts within the window of it |
| `Baseline.BoundedStaleness` | internal/monitor/anomaly.go:36-44 | with samples at most `slack` out of order, none is kept that is older than window + slack before the last |
| `Baseline.PushIsFreshIff` | internal/monitor/anomaly.go:36-44 | an add leaves no sample older than the window if and only if the stale ones all stood in front of the others |
| `StaleSamples.KeptTooLong` | internal/monitor/anomaly.go:28-44 | a clocked run of three cycles, with no row late, after which a 60 s window holds a sample 88 s older than its last |
| `Baseline.OrderedWindowIsFilter` | internal/monitor/anomaly.go:35-44 | for samples in time order the window is exactly the filter ts >= last - window |
| `Detection.WindowOfKey` | internal/monitor/anomaly.go:80-97 | each key's window depends on that key's samples only |
| `Detection.ServiceKeyInjective` | internal/monitor/anomaly.go:90-96 | two series share a window exactly if they agree on service and metric; a service never shares with a queue |
| `Detection.Baselines.Get` | internal/monitor/anomaly.go:80-87 | finds or creates the window of a key and changes no other |
| `Detection.Baselines.Add` | internal/monitor/anomaly.go:90-97 | one key's window gains the sample, all others stay |
| `Detection.Baselines.AddServiceMetric` | internal/monitor/anomaly.go:90-92 | the sample goes to the window of that service and metric |
| `Detection.Baselines.AddQueueMetric` | internal/monitor/anomaly.go:95-97 | the sample goes to the window of that queue |
| `Detection.Baselines.StatsFor` | internal/monitor/anomaly.go:99-115 | the statistics of a key's window, none for an unknown key |
| `Detection.RecordedStays` | internal/monitor/anomaly.go:36-44 | a sample stays in its window while no later one of its key is more than the window younger |
| `Detection.BestServiceIsFirstStrongest` | internal/monitor/anomaly.go:140-192 | one signal per (service, metric) for which some row fires, and it is the first of largest deviation |
| `Detection.ServiceFiredBy` | internal/monitor/anomaly.go:143-175 | every fired signal passed its metric's threshold and its floor against the key's statistics |
| `Detection.QueueFiredBy` | internal/monitor/anomaly.go:212-227 | the same for queue depth, so that its kept row, too, is the first with the largest value |
| `Detection.StrongestByValue` | internal/monitor/anomaly.go:176-180 | with spread the kept row is the first with the largest value (smallest for throughput), with a flat baseline the first |
| `Detection.BestQueueIsFirstStrongest` | internal/monitor/anomaly.go:195-235 | the same per (queue, metric); DLQ depth and queue depth never mix |
| `Detection.DlqKeepsDeepest` | internal/monitor/anomaly.go:199-210 | of a DLQ's firing rows the first deepest is kept |
| `Answers.ServiceCheckIs` | internal/monitor/anomaly.go:143-175 | a row's check fires exactly if its window has 10 samples and its value passes the metric's threshold and floor, and the signal's fields are spelled out |
| `Answers.QueueCheckIs` | internal/monitor/anomaly.go:199-227 | the same for queue rows: a DLQ row with messages fires dlq_depth and nothing else, any other row can fire queue_depth |
| `Answers.ServiceAnswers` | internal/monitor/anomaly.go:140-192 | the detector's answer: a signal for each service and metric that some row's value fires, the first of largest deviation, one per series, and no other |
| `Answers.QueueAnswers` | internal/monitor/anomaly.go:195-235 | the same for queues |
| `Detectors.DetectServiceAnomalies` | internal/monitor/anomaly.go:140-192 | the loop gives that answer against the baselines' contents |
| `Detectors.DetectQueueAnomalies` | internal/monitor/anomaly.go:195-235 | likewise for queues |
| `Signals.SignalKeyInjective` | internal/monitor/correlator.go:367-369 | without a separator in queue names two signals share a key exactly if service, queue and metric agree |
| `Signals.OneSidedKeys` | internal/monitor/correlator.go:367-369 | of signals as the detectors emit them, a key determines service, queue and metric whatever the names are |
| `Signals.KeySharedIff` | internal/monitor/correlator.go:367-369 | for signals at large another one with the same key exists if and only if a separator occurs in the service or the queue |
| `ActiveSignals.MergeKeepsStrongest` | internal/monitor/correlator.go:95-111 | each key holds the last signal of largest deviation among its old entry and the new ones |
| `ActiveSignals.UpdatedDistinct` | internal/monitor/correlator.go:84-112 | an update keeps the keys of the active set distinct |
| `ActiveSignals.UpdateRemembers` | internal/monitor/correlator.go:84-112 | after an update: signals of the last 30 s whose key no new one has are still there, nothing else is but new ones, and each key holds the last strongest of both |
| `ActiveSignals.GroupsWellGrouped` | internal/monitor/correlator.go:132-153 | the groups join to the sorted signals, none is empty or spans over 10 s, starts are over 10 s apart |
| `ActiveSignals.GreedyIsOptimal` | internal/monitor/correlator.go:132-153 | no split of the same signals into parts of that span has fewer parts |
| `ActiveSignals.AtMostThreeGroups` | internal/monitor/correlator.go:132-153 | signals inside 30 s make at most three groups |
| `Correlation.Correlator.PruneInPlace` | internal/monitor/correlator.go:85-93 | the in-place filter equals the order-preserving filter ts >= cutoff |
| `Correlation.Correlator.Merge` | internal/monitor/correlator.go:96-111 | one new signal: replaced, kept or appended |
| `Correlation.Correlator.AddSignals` | internal/monitor/correlator.go:84-112 | the buffer becomes the pruned and merged active set, which remembers the last 30 s and the new signals |
| `Correlation.Correlator.ActiveSignals` | internal/monitor/correlator.go:115-119 | a copy of the active set |
| `Correlation.Correlator.GroupByTime` | internal/monitor/correlator.go:132-153 | the loop computes the greedy grouping |
| `Correlation.Correlator.Correlate` | internal/monitor/correlator.go:122-166 | one correct event per group of the sorted set that is not a lone non-DLQ signal, in order |
| `Correlation.RootFollowsRule` | internal/monitor/correlator.go:202-261 | the root in every case: the origin of the first fault start of the last 5 s that names a service of the group; else, with queue signals only, the owner of the first owned queue; else the service of the first most upstream signal |
| `Correlation.NominateRoot` | internal/monitor/correlator.go:202-261 | the loops give the root of that rule |
| `Correlation.EvidenceIsFirst` | internal/monitor/correlator.go:203-214 | the evidence is the first fault start in the lookback window that names a service of the group, none before it does |
| `Correlation.OwnerIsFirst` | internal/monitor/correlator.go:232-242 | the owner is that of the first signal on a queue that has one |
| `Correlation.ScanIsMostUpstream` | internal/monitor/correlator.go:244-260 | the last loop finds the first signal least in (topology depth, time), unknown services last |
| `Correlation.InferredRoot` | internal/monitor/correlator.go:225-261 | without evidence and with a service signal the root is that signal's service |
| `Correlation.RootIsNamed` | internal/monitor/correlator.go:202-261 | the root is always the service of some signal of the group |
| `Correlation.BuildAffected` | internal/monitor/correlator.go:264-281 | sorted, duplicate-free, exactly the root and the signalled services strictly downstream of it |
| `Correlation.AffectedUnique` | internal/monitor/correlator.go:264-281 | those three facts leave only one list |
| `Correlation.MatchFaultType` | internal/monitor/correlator.go:284-293 | the type of the first start of the root's fault in the lookback window, else none |
| `Correlation.FaultIsFirst` | internal/monitor/correlator.go:284-293 | of the matching fault starts the first gives the type, and without one it is empty |
| `Correlation.EventFollowsRule` | internal/monitor/correlator.go:168-199 | every field of an event from its signals and the faults: start, root, fault type from 5 s before to 2 s after, affected services, cause, first entry |
| `Correlation.BuildEvent` | internal/monitor/correlator.go:168-199 | an event by that rule |
| `Correlation.EventsPartitionSignals` | internal/monitor/correlator.go:132-166 | the events are, in order, the 10 s groups with several signals or a DLQ signal; every other active signal is lone and not a DLQ signal, and nothing else is in an event |
| `Correlation.AtMostThreeEvents` | internal/monitor/correlator.go:132-166 | an active set inside 30 s gives at most three events |
| `Correlation.EventRoots` | internal/monitor/correlator.go:168-199 | an event's root is the service of an active signal and in its own affected list |
| `Incidents.IncidentStore.ListActive` | internal/monitor/incidents.go:69-71 | the active rows, newest first, each once |
| `Incidents.IncidentStore.FindMatchingIncident` | internal/monitor/incidents.go:152-168 | the first listed incident with the event's root and fault type, none standing for no fault |
| `Incidents.FindMatchIsMember` | internal/monitor/incidents.go:152-168 | a match is listed and has the key; there is one exactly if some listed incident has the key |
| `Incidents.MatchIsFirst` | internal/monitor/incidents.go:152-168 | the match is the first listed incident with the event's root and fault type, no fault standing for the empty type; none without one |
| `Incidents.IncidentStore.Write` | internal/monitor/incidents.go:44-53 | one event extends its match or, without one, adds one active row with the event's start, root, cause, affected list, fault type and timeline |
| `Incidents.IncidentStore.Reconcile` | internal/monitor/incidents.go:37-57 | the batch is applied against the list read at its start, up to the first failing statement |
| `Incidents.IncidentStore.SetResolved` | internal/monitor/incidents.go:60-66 | only the row with that id changes, to resolved at that time |
| `Incidents.ReconcileShape` | internal/monitor/incidents.go:37-57 | old rows keep all but their timeline, which gains its matched events' timelines in order; unmatched events become new rows in order, active, field by field |
| `Incidents.UnlistedUntouched` | internal/monitor/incidents.go:43-53 | rows that were not listed as active do not change |
| `Incidents.EntriesConserved` | internal/monitor/incidents.go:106-118 | the number of timeline entries grows by exactly the batch's entries |
| `Incidents.ReconcileCounts` | internal/monitor/incidents.go:37-57 | per key the number of active incidents is unchanged if positive, else the number of its events |
| `Incidents.AtMostOneKept` | internal/monitor/incidents.go:37-57 | "at most one active incident per key" survives a batch if and only if no unlisted key occurs in it twice |
| `Incidents.DuplicateBatch` | internal/monitor/incidents.go:38-48 | if two events anywhere in a batch share a key without an active incident, each event of that key makes an active incident |
| `DuplicateIncidents.TwoIncidentsOneKey` | internal/monitor/incidents.go:37-57 | a valid clocked run of the whole monitor ends with two active incidents of one key: a letter on payment-dlq, then 20 s later a spike of payment's errors and latency, in one cycle |
| `Resolution.AttributionAgrees` | internal/monitor/incidents.go:188-199 | the service under which the correlator files a signal is anomalous for the tracker |
| `Resolution.TallyAt` | internal/monitor/incidents.go:204-222 | each listed counter moves on its own: up by one if clean, to 0 if not |
| `Resolution.ToResolveMembers` | internal/monitor/incidents.go:201-222 | returned are the listed, clean incidents that already had a positive count |
| `Resolution.CheckFollowsRule` | internal/monitor/incidents.go:184-232 | a check in terms of signals: returned are the listed incidents counted before that no active signal touches by service, queue or queue owner; those are counted up, the others set to 0, the unlisted forgotten |
| `Resolution.ResolutionTracker.Check` | internal/monitor/incidents.go:184-232 | the loops follow that rule |
| `Resolution.ResolutionTracker.AnomalousNames` | internal/monitor/incidents.go:188-199 | services, queues and the owners of queues of all signals |
| `Resolution.ResolutionTracker.RemoveUnlisted` | internal/monitor/incidents.go:224-229 | exactly the counters of unlisted ids go |
| `Resolution.CountsAreStreaks` | internal/monitor/incidents.go:184-232 | over any calls the counters belong to the last listed ids, and each is the length of its trailing clean run |
| `Resolution.ReturnedIffStreak` | internal/monitor/incidents.go:214-222 | an id is returned if and only if that run has reached two |
| `Resolution.ReturnedIffQuietTwice` | internal/monitor/incidents.go:184-232 | over any calls: an id is returned if and only if the last two calls both listed it and no signal touched any name it affects |
| `Resolution.EmptyCheckRestarts` | internal/monitor/poller.go:113-120 | after a check of no incidents every streak is 0, and the check that follows resolves nothing, whatever it is given |
| `Monitor.Poller.AddServiceRows` | internal/monitor/poller.go:91-95 | three samples per row, in row order |
| `Monitor.Poller.AddQueueRows` | internal/monitor/poller.go:96-98 | one sample per row, in row order |
| `Monitor.Poller.Observe` | internal/monitor/poller.go:90-103 | baselines are updated first and detection runs against the updated ones |
| `Monitor.Poller.Reconcile` | internal/monitor/poller.go:113-117 | the incidents handed on are the relisted ones, or none after an error |
| `Monitor.Poller.Resolve` | internal/monitor/poller.go:119-125 | the returned ids are resolved at the cycle's time, failing updates skipped |
| `Monitor.Poller.Cycle` | internal/monitor/poller.go:76-136 | one call takes exactly one step of the cycle relation, early returns included |
| `Monitor.Poller.Tick` | internal/monitor/poller.go:66-69 | the history of cycles grows by this one and stays a valid run that ends in the objects' state |
| `CycleRules.RecentRowsRead` | internal/monitor/poller.go:77-107 | a cycle reads exactly the metric rows of the last 30 s and the faults of the last 10 s |
| `CycleRules.CycleFollowsRule` | internal/monitor/poller.go:77-111 | every cycle: the detectors' answers against the updated windows, the memory of the last 30 s, and events by their rule from the faults read |
| `CycleRules.FailedReconcile` | internal/monitor/poller.go:113-125 | after a failed reconcile nothing is resolved and no streak is left |
| `MonitorRuns.DetectedAreRecent` | internal/monitor/poller.go:77-103 | every detected signal is dated in the last 30 s and names something |
| `MonitorRuns.ActiveAreRecent` | internal/monitor/poller.go:105-106 | so is every active signal after the update |
| `MonitorRuns.DetectedAreUnmasked` | internal/monitor/poller.go:90-102 | a detected service signal stands against a spread-out window, an error-rate or latency one against at least 11 samples |
| `Series.QueueSignalsAreUnmasked` | internal/monitor/poller.go:90-102 | a detected queue-depth signal, too, stands against a window that holds its own row and has spread |
| `MonitorRuns.CycleFacts` | internal/monitor/poller.go:105-120 | at most three events and three new incidents per cycle, and what is checked are distinct active rows |
| `MonitorRuns.DirtyRowSurvives` | internal/monitor/incidents.go:204-222 | an active row with any affected name anomalous is not resolved and its count is 0 |
| `MonitorRuns.NotResolvedWhileNamed` | internal/monitor/poller.go:105-125 | no incident, new or old, is resolved in a cycle whose correlator names its root, and its streak restarts |
| `Backlogs.NotResolvedWhileBacklogged` | internal/monitor/incidents.go:184-222 | while a recent row shows a dead-letter queue not empty, no incident affecting the queue or its owner is resolved, whatever the correlator makes of it |
| `Backlogs.OpenWhileBacklogged` | internal/monitor/incidents.go:184-222 | over any rest of a run: such an incident stays open as long as every completed cycle reads such a row |
| `MonitorRuns.StepKeepsSound` | internal/monitor/poller.go:76-136 | every cycle keeps keys distinct, ids in order, roots in affected lists, and resolved_at after started_at |
| `MonitorRuns.StepEvolves` | internal/monitor/poller.go:113-125 | rows only evolve, at most three are added, entries grow by those of the written events |
| `MonitorRuns.RunIsSound` | internal/monitor/poller.go:48-64 | that invariant holds after every run |
| `MonitorRuns.RowsEvolveOverRun` | internal/monitor/incidents.go:43-66 | over any rest of a run resolved incidents never change or reopen and timelines only grow |
| `IncidentHistory.TimelineFrom` | internal/monitor/incidents.go:43-53 | from any cycle of any run on, a timeline grows by exactly the timelines of the events matched to it, in order, and all else but the status stays |
| `IncidentHistory.TimelineHistory` | internal/monitor/incidents.go:37-57 | after every run each incident has the start, root, cause, affected list and fault type of its creating event, and that event's timeline followed by those of the events matched to it later |
| `Series.RunOnePerSeries` | internal/monitor/correlator.go:84-112 | after every run the active set has at most one signal per service, queue and metric, and none meets another's key |
| `MonitorRuns.EntriesOfRun` | internal/monitor/incidents.go:106-118 | the table holds exactly as many timeline entries as all written events had |
| `MonitorRuns.RunStreaks` | internal/monitor/poller.go:119-120 | over runs: counters exist for the last listed ids and are their clean streaks |
| `MonitorRuns.RunResolves` | internal/monitor/poller.go:119-125 | the last cycle tries to resolve an id if and only if its streak is at least two |
| `Resolutions.ResolvedIff` | internal/monitor/poller.go:113-125 | over every run: an incident is resolved if and only if some cycle found it listed and untouched by any active signal for the second time in a row and could write that; by the first such cycle and at its time |
| `MonitorRuns.WindowsOfRun` | internal/monitor/poller.go:90-98 | the baselines hold exactly what the run's rows, re-read ones included, were added as |
| `MonitorRuns.RunStaleness` | internal/monitor/poller.go:76-98 | for every key the window is a suffix of all samples, and none is over 90 s older than the last |
| `MonitorRuns.RunKeepsRecent` | internal/monitor/anomaly.go:33-44 | over every run a sample is still in its window while none of its key added later is over 60 s younger |
| `MonitorRuns.RunAtMostOne` | internal/monitor/incidents.go:37-57 | "at most one active incident per key" holds over every run whose batches have distinct keys |
| `Broker.StepKeepsShape` | internal/simulator/queue.go:51-118 | every step keeps received ++ buffered = put, at most 1000 buffered, and subscriptions a forest |
| `BrokerLaws.StepKeepsBalance` | internal/simulator/queue.go:51-166 | every step of every goroutine moves counters and histories exactly as the goroutines' positions |
| `BrokerRuns.RunIsSound` | internal/simulator/queue.go:51-166 | all queue invariants hold in every reachable state |
| `BrokerRuns.CounterLaw` | internal/simulator/queue.go:53-57 | depth = buffered - uncounted puts + uncounted takes; flushed plus live counters are off by exactly the goroutines in between |
| `BrokerRuns.DepthExact` | internal/simulator/queue.go:120-123 | the depth is the number of buffered messages if and only if as many puts as takes are uncounted |
| `BrokerRuns.NegativeDepth` | internal/simulator/queue.go:107-118 | a reachable state with depth -1 |
| `BrokerRuns.Fifo` | internal/simulator/queue.go:51-118 | receives come out in put order and the buffer never exceeds its size |
| `BrokerRuns.FanOut` | internal/simulator/queue.go:65-84 | puts on the parent since the subscription = puts on it + losses + copies held by senders, in every state |
| `BrokerRuns.FanOutAtRest` | internal/simulator/queue.go:65-84 | uncancelled and between sends, parent and subscription have received the same messages, as multisets |
| `BrokerRuns.OnlyFullBufferBlocks` | internal/simulator/queue.go:48-63 | a goroutine inside a queue operation is stuck exactly before a put on a full buffer, uncancelled |
| `Delivery.Fabric.Send` | internal/simulator/queue.go:51-73 | the recursive send equals working off an explicit stack of sends, losses and blocking included |
| `Delivery.Fabric.Put` | internal/simulator/queue.go:53-68 | the put, both adds and the snapshot on one queue |
| `Delivery.Fabric.TryReceive` | internal/simulator/queue.go:109-118 | the oldest message, or none; counters follow |
| `Delivery.Fabric.Receive` | internal/simulator/queue.go:86-105 | waits exactly on an empty queue uncancelled; a cancelled queue is still drained, message by message |
| `Delivery.Fabric.WriteMetrics` | internal/simulator/queue.go:154-166 | both counters are swapped to 0 and what they held is reported |
| `Delivery.Fabric.Subscribe` | internal/simulator/queue.go:78-84 | a new empty queue, listed last by its parent |
| `Delivery.EveryVisitOneCopy` | internal/simulator/queue.go:48-73 | an unblocked, uncancelled send appends one copy to every queue it comes by and takes nothing away |
| `Delivery.DeliverConcat` | internal/simulator/queue.go:70-72 | sends in a row: the second starts when the first is done |
| `Delivery.DeliverIsRun` | internal/simulator/queue.go:51-73 | the sequential send is a legal run of the goroutine's atomic steps |
| `Delivery.ReceiveIsRun` | internal/simulator/queue.go:109-118 | so is the sequential receive |
| `PipelineLaws.StartIsReachable` | cmd/simulator/main.go:34-43 | the program's queues, subscription first, are a reachable state of the queues |
| `PipelineLaws.JobStepOk` | internal/simulator/payment_service.go:146-226 | each step of a message goroutine keeps the link between program counter, attempts, counts and the one send |
| `PipelineLaws.JobsEnd` | internal/simulator/payment_service.go:178-226 | a message goroutine's own steps run out |
| `PipelineLaws.MoveKeepsOk` | internal/simulator/payment_service.go:119-226 | every move under every interleaving keeps what the program counters say |
| `Accounts.MoveKeepsBooks` | internal/simulator/payment_service.go:228-305 | every move keeps meters and queues equal to the goroutines' own counts |
| `PipelineRuns.PutBy` | internal/simulator/payment_service.go:228-264 | what bears a goroutine's id on a queue is what that goroutine put there |
| `PipelineRuns.PaymentOutcome` | internal/simulator/payment_service.go:144-226 | each payment goroutine gets at most one letter onto payment-queue or the DLQ, never both; which one is fixed by message, attempts and outcome |
| `PipelineRuns.PaymentDlqTells` | internal/simulator/payment_service.go:171-176 | on the DLQ processing_error means 3 counted failures and schema_invalid a poisoned message at attempt 1 |
| `PipelineRuns.NotificationDlqTells` | internal/simulator/notification_service.go:156-167 | on the notification DLQ every letter is of a message that failed twice |
| `PipelineRuns.PaymentQueueTells` | internal/simulator/payment_service.go:171-209 | a poisoned or malformed message never reaches payment-queue |
| `Owners.OwnerWrites` | internal/monitor/correlator.go:60-66 | a message on a queue that is not from outside was put there by a goroutine of the service that the monitor's table names as the queue's owner |
| `Owners.FlowsDown` | internal/monitor/correlator.go:27-35 | every consumer is below the owner of the queue it reads from, and owns the DLQ it writes to |
| `PipelineRuns.EachTakenOnce` | internal/simulator/payment_service.go:135-141 | every message taken has exactly one goroutine, or is in its ticker's hands |
| `Polls.TickTakes` | internal/simulator/payment_service.go:135-141 | a payment tick takes at most five messages, any other three, and ends only with the queue empty or its quota taken |
| `PipelineRuns.CrashedTakesNothing` | internal/simulator/payment_service.go:119-133 | while crashed no move of any goroutine takes from order-queue |
| `PipelineRuns.OutageTakesNothing` | internal/simulator/payment_service.go:119-133 | from a crash on, through any moves during which the fault stays active and nobody restarts it, the service stays crashed and order-queue loses nothing |
| `PipelineRuns.CrashAndRecovery` | internal/simulator/payment_service.go:119-133 | an undisturbed tick leaves the service crashed exactly if its fault context says so, and polls exactly if it neither was crashed nor is told to crash |
| `PipelineRuns.ConsumerMetrics` | internal/simulator/payment_service.go:266-305 | processed + errors = total live and in every row, so error rates lie in [0, 1]; sums over all time are the goroutines' counts |
| `Metrics.OrderLaw` | internal/simulator/order_service.go:101-149 | requests - enqueued - errors over all time is 1 while a tick is under way, else 0 |
| `Metrics.OrderCountersExact` | internal/simulator/order_service.go:101-170 | the live errors exceed the requests if and only if the last flush split a tick, that tick is over, and nothing sent was counted since; then by one |
| `Metrics.OrderRowExact` | internal/simulator/order_service.go:164-183 | the same of every row, in terms of the state its flush met; and its error rate leaves [0, 1] if and only if moreover a request was counted |
| `Metrics.ErrorRateOfTwo` | internal/simulator/order_service.go:164-183 | a reachable state with an order row of error rate 2 |
| `Quiescence.SubscriptionSawAll` | internal/simulator/queue.go:65-84 | at rest the subscription has received exactly what payment-queue has |
| `Quiescence.EveryPaymentEnds` | internal/simulator/fulfillment_service.go:78-152 | at rest every message on payment-queue has ended once at fulfillment and its copy once at notification |
| `Quiescence.Conservation` | internal/simulator/notification_service.go:109-169 | at rest, nobody else sending: approved = fulfilled + discarded = notified + dead-lettered, and the buffers of the DLQs hold exactly the dead letters |
| `Quiescence.EachApprovedOnce` | internal/simulator/payment_service.go:206-252 | at rest each approved payment has exactly one fulfillment and one notification goroutine |
| `Quiescence.NoBrokenOrders` | internal/simulator/order_service.go:133-142 | with nobody sending from outside, no payment goroutine of any reachable state has a malformed order |
| `Quiescence.EveryOrderEnds` | internal/simulator/order_service.go:142-148 | at rest, nobody else sending: orders counted as enqueued = put on order-queue = approved + dead-lettered = receipts on payment-queue + letters still on the payment DLQ |
| `Metrics.PaymentsCounted` | internal/simulator/payment_service.go:228-252 | messages ever put on payment-queue = payments counted in rows and live + goroutines between put and count - losses at cancellation + what came from outside |
| `Metrics.ApprovedSends` | internal/simulator/payment_service.go:245-251 | uncancelled and closed: the messages put are the payments counted and the goroutines between put and count |
| `DeadLetters.DlqHoldsAll` | internal/simulator/payment_service.go:254-264 | in every reachable state a dead-letter queue still holds, in order, all that was ever put on it, and that is at most 1000 |
| `DeadLetters.HangsForGood` | internal/simulator/queue.go:51-63 | a goroutine that waits on a full dead-letter queue waits, unchanged, through every continuation without cancellation, and the queue stays full |
| `DeadLetters.HangsIffFull` | internal/simulator/queue.go:51-63 | uncancelled, a goroutine in front of its put on a DLQ hangs if and only if 1000 letters were ever put there; else it can go on |
| `FullDeadLetters.HangsSomewhere` | internal/simulator/payment_service.go:171-176 | a reachable state in which a goroutine hangs on the full payment DLQ: 1001 poisoned orders |
| `Services.RetryOutcome` | internal/simulator/fulfillment_service.go:110-151 | undisturbed, a goroutine succeeds at its first attempt that does not fail, with one error for each before; else it exhausts them all |
| `Outcomes.JobOutcome` | internal/simulator/payment_service.go:146-226 | undisturbed, for every message of every consumer: outcome, counts and the one send with its letter, at 3 attempts for payment and fulfillment and 2 for notification |
| `Services.Consumer.IncrError` | internal/simulator/payment_service.go:266-271 | errors and total go up together |
| `Services.Consumer.CountProcessed` | internal/simulator/payment_service.go:247-251 | processed and total go up together |
| `Services.Consumer.WriteMetrics` | internal/simulator/payment_service.go:286-297 | the counters go into one row and to 0 |
| `Services.Consumer.Validate` | internal/simulator/payment_service.go:146-176 | malformed, poisoned and declined messages are settled as the stepwise goroutine does |
| `Services.Consumer.Attempt` | internal/simulator/payment_service.go:179-225 | the loop body is the stepwise attempt |
| `Services.Consumer.ProcessMessage` | internal/simulator/payment_service.go:146-226 | the sequential code ends with the outcome, counts and sends of the stepwise goroutine, for all three services |
| `Percentiles.SortInPlace` | internal/simulator/order_service.go:234-236 | the array becomes ascending and a permutation of itself |
| `Percentiles.RankUnique` | internal/simulator/order_service.go:237-238 | a rank names one value only |
| `Percentiles.LatencyPercentiles` | internal/simulator/order_service.go:230-240 | p50 has rank n/2 and p99 rank 99n/100, p50 <= p99, zeros for an empty list, the list unchanged |

## Left out

- Storage and encoding: SQL text, JSON and the schema; the incident table is a
  sequence of records, metric queries are arbitrary row sequences filtered by
  time, and whether a payload unmarshals is a flag of the message.
- HTTP handlers, the SSE broadcaster, the dashboard, `Server`, both `main.go`
  files beyond the wiring, and the snapshot built at the end of a cycle.
- The fault engine: each read of a fault context is a free choice, since its
  result can depend on map iteration order.
- Real time, tickers, jitter, sleeps, identifiers and logging: free choices or
  parameters. The poller's skipping of cycles after a slow one only removes
  cycles from a run.
- Floating-point rounding: exact reals, including the index computed for the
  99th percentile.
- Incident severity, which is stored once and never read by the monitor's logic.
- How latencies are measured and collected (the percentiles of any list are
  modelled), and the in-flight table with its first-attempt times.
- The queues' and services' goroutines are values in a transition system, not
  objects: `Broker` and `Pipeline` do not capture memory aliasing, and atomicity
  is taken as the Go memory model gives it for channels, atomics and mutexes.
- `MonitorRuns.RunIsSound`: assumes the clock and that rows name their origin
  (`Clocked`); nothing in the code enforces either.
- `Delivery.Fabric.Send`: a send that blocks for good is reported as unfinished,
  since no other goroutine can help it there.

# Verification of the topology store, its replicas and the demo pipelines

This project models four parts of the repository and proves what they promise.

* **Topology store and replicas.** `apps/topology` keeps services and edges, answers every call with incremental
  updates, and sweeps and flushes on timers; the dashboard joins with a snapshot and folds the updates.
  `TopologyStore` and `TopologyService` are classes with the fields of the originals, proved against the functions
  of `StoreSpec`; the dashboard's pure functions are in `Client`. `Replica` proves that the two copies agree over every
  run although they cascade removals by different rules. `StoreInvariant`, `Sweeping`, `EdgeMetrics`, `EdgeHistories`
  and `FlushSchedules` state what the store itself keeps. `StoreLaws` says field by field what every call does, with all
  comparisons written out, and `Lifetimes` tells from the calls of a run alone which services are present, stale and
  active.
* **C++ monolith.** `BlockingQueue` is the bounded queue as a monitor with one mutex, two condition variables,
  `notify_one` and spurious wakeups (section 33.5 of ISO/IEC 14882:2017). `Channels` shows that it implements guarded
  atomic pushes and pops, and `Monolith` interleaves reader, parsers, rules, aggregator and writer over four of those.
  `MonolithControl` proves deadlock freedom and termination, `MonolithResults` conservation and schedule independence.
  `WiredMonolith` and `WiredRuns` put the four monitors back in place of the atomic queues and carry both results over.
  `MonolithThreads` holds the code of queue, threads and coordinator, each turn of a thread proved to be a move.
* **Split pipeline.** `Stages` and `Handlers` hold the handlers of the ingest, parse, rules and aggregate services and
  the orchestrator's three re-cutting buffers, `SplitRoute` interleaves them, `SplitResults` compares the batched route,
  the unbatched route and the monolith, `SplitTallies` tells from the ingested events alone what arrives at the end,
  `SplitProgress` proves that every run ends, `SplitSizes` counts and measures the requests.
* **TopologyReporter.** `Reporting` is the reconnect and shutdown state machine, `ReporterClass` the class proved
  against it, `ReporterInvariant` what holds between steps. `ReporterLaws` tells from the events of a run alone what the
  reporter holds and sends, and `Zombies` puts a reporter, a lossy network and the store together.

Each module is in the file of its name. Clocks, random ids, failing writes, scheduling and message loss are parameters
or nondeterministic choices. Parsing of a line is an uninterpreted function. Averages and rates are real numbers; counters are unbounded integers.

Five promises hold only under a condition, and the exact condition is proved:

* The batched and the unbatched route give the same results if and only if no event is a work item that gets processed
  and scored (`SplitResults.RoutesAgreeExactly`), because the batch handler of the rules service applies the value rule to
  work items, whose value is always 0. Any single such work item tells them apart.
* A step keeps the reporter registered or reconnecting if and only if it is not a response, awaited by the retry loop,
  that carries no id or whose first heartbeat write throws (`ReporterInvariant.ConnectingExactly`).
* Shutdown silences the reporter's heartbeat interval if and only if none was stranded before: an interval is stranded
  when a handle is accepted while the field still holds one, which only an earlier throwing first write leaves there
  (`ReporterInvariant.StrandsExactly`, `ReporterInvariant.IntervalsAfterShutdown`). After shutdown a stranded interval
  goes on firing, but sends nothing.
* The monolith's threads can all be joined if and only if the output file opens, or the queues are unbounded, or all
  results fit the result queue (`MonolithResults.EndsWellExactly`): the writer leaves without closing its queue. Runs
  with either ending exist (`MonolithResults.MaximalRun`).
* A new watcher whose snapshot write throws goes on watching without a snapshot; it is in sync if and only if there was
  nothing to show (`Service.TopologyService.WatchTopology`).

The edge key is injective only for source ids without ':' (`Topology.EdgeKeyCollision` says exactly when two keys
collide); ids come from `randomUUID`, which draws none.

## Model

| member | source | states |
|---|---|---|
| Topology.EdgeKeyCollision | apps/topology/src/topology-store.ts:449-451 | two different (source, target) pairs share a key exactly when one source extends the other by ':' and the targets make up for it |
| Topology.EdgeKeyInjective | apps/topology/src/topology-store.ts:449-451 | for ids without ':' a key names one source and one target |
| Topology.TrimmedExactly | apps/topology/src/topology-store.ts:46-47 | trimming takes off white space at both ends, all of it, and nothing else |
| Topology.KeysOfService | apps/topology/src/topology-store.ts:45-72 | the exact set of names a service answers to, for every combination of interface, role and address |
| Store.TopologyStore.constructor | apps/topology/src/topology-store.ts:122-133 | a new store is the initial state of every run |
| Store.TopologyStore.RegisterService | apps/topology/src/topology-store.ts:141-181 | the whole new state and the one update, a new node |
| Store.TopologyStore.UnregisterService | apps/topology/src/topology-store.ts:188-190 | removal of a service with all edges from it or to any of its keys; the updates are exactly those removals, each once |
| Store.TopologyStore.RecordHeartbeat | apps/topology/src/topology-store.ts:198-229 | clocks, recovery from STALE, health, and when watchers are told despite the throttle; unknown ids change nothing |
| Store.TopologyStore.RecordActivity | apps/topology/src/topology-store.ts:237-306 | the caller becomes ACTIVE, the edge is created or its pending counts grow; the updates in order |
| Store.TopologyStore.TouchCaller | apps/topology/src/topology-store.ts:243-256 | the calling service's record and whether it is announced |
| Store.TopologyStore.AccumulateActivity | apps/topology/src/topology-store.ts:258-303 | pending requests, errors and latency of the edge |
| Store.TopologyStore.FlushActivity | apps/topology/src/topology-store.ts:313-349 | whatever the iteration order, every pending edge is folded into its totals once and announced once |
| Store.TopologyStore.FlushPending | apps/topology/src/topology-store.ts:320-343 | totals, running average and rate of one edge after a flush |
| Store.TopologyStore.UpdateEdgeRps | apps/topology/src/topology-store.ts:453-475 | the trimmed sample window and the rate over it |
| Store.TopologyStore.RemoveService | apps/topology/src/topology-store.ts:424-447 | deleting while iterating, in any order, removes exactly the service and the edges that touch it |
| Store.TopologyStore.CollectServiceTargets | apps/topology/src/topology-store.ts:477-485 | the keys of all live services |
| Store.TopologyStore.SweepServices | apps/topology/src/topology-store.ts:361-384 | the first half of the sweep, in any order: overdue services go with their edges, the others are marked by their clocks |
| Store.TopologyStore.SweepEdges | apps/topology/src/topology-store.ts:386-405 | the second half: edges idle beyond the timeout without a known target go, others become IDLE |
| Store.TopologyStore.SweepAll | apps/topology/src/topology-store.ts:356-408 | the loops over mutating maps compute the declarative sweep, whatever the order, and announce exactly its changes |
| Store.TopologyStore.Snapshot | apps/topology/src/topology-store.ts:415-422 | the snapshot lists each node and edge exactly once |
| StoreLaws.Registers | apps/topology/src/topology-store.ts:141-181 | a registration records every field asked for, the time as first heartbeat and the store's own interval and multiplier, touches no other service, and announces the node |
| StoreLaws.HeartbeatTells | apps/topology/src/topology-store.ts:198-229 | what a heartbeat moves, when it brings a stale service back, whose health it takes over, and exactly when it is announced |
| StoreLaws.CallerBecomesActive | apps/topology/src/topology-store.ts:243-256 | a report makes the caller active at that time, and exactly when watchers hear of it |
| StoreLaws.ReportIsPending | apps/topology/src/topology-store.ts:258-303 | a report adds its batch size, at least 1, as many errors if it failed, and its latency that many times, to what is pending, and to nothing else |
| StoreLaws.NewEdgeAnnounced | apps/topology/src/topology-store.ts:260-286 | an edge is announced exactly by the first report of its connection, with nothing counted yet |
| StoreLaws.FlushCounts | apps/topology/src/topology-store.ts:313-349 | a flush moves what is pending into the totals and the edge shown, and leaves edges with nothing pending as they are |
| StoreLaws.UnwindowedRate | apps/topology/src/topology-store.ts:453-459 | without a window the rate is the requests flushed over the time since the last flush, at least 1 ms |
| StoreLaws.FlushTells | apps/topology/src/topology-store.ts:313-349 | exactly the edges that had something pending are announced |
| StoreLaws.Unregisters | apps/topology/src/topology-store.ts:424-447 | exactly the service, its edges and those to its keys go, unknown ids change nothing |
| StoreLaws.UnregisterTells | apps/topology/src/topology-store.ts:424-447 | exactly what went is announced, each once |
| StoreLaws.SweepMarksServices | apps/topology/src/topology-store.ts:361-384 | a survivor is stale if and only if it was or is silent for more than two intervals, turned idle if and only if it was active and inactive beyond the idle timeout, and otherwise unchanged |
| StoreLaws.SweepMarksEdges | apps/topology/src/topology-store.ts:386-405 | which edges a sweep keeps, and that one of them is idle if and only if it was or was active and without activity beyond the idle timeout |
| StoreLaws.SweepLeavesTheRest | apps/topology/src/topology-store.ts:356-408 | name index and flush clock after a sweep |
| StoreLaws.SweepTellsServices | apps/topology/src/topology-store.ts:361-384 | a removal is announced for each service that went, an update for exactly those whose state changed |
| StoreLaws.SweepTellsEdges | apps/topology/src/topology-store.ts:386-405 | the same for edges |
| StoreLaws.SweepSaysOnce | apps/topology/src/topology-store.ts:356-408 | everything a sweep says is of these four kinds, and said once |
| Lifetimes.LifetimeExactly | apps/topology/src/topology-store.ts:141-408 | in every run an id is present if and only if it registered, did not unregister since, and no sweep came later than the store's interval times its multiplier after its registration or last heartbeat |
| Lifetimes.AliveIsHeld | apps/topology/src/topology-store.ts:141-408 | and then under what it declared when it registered, with the store's terms and the time it was last heard |
| Lifetimes.StaleExactly | apps/topology/src/topology-store.ts:370-376 | a service is stale if and only if some sweep found it silent for more than two intervals and it has neither beaten nor reported since |
| Lifetimes.ActiveExactly | apps/topology/src/topology-store.ts:378-384 | a service is active if and only if it has reported and no sweep since its last report found it silent or inactive beyond the idle timeout |
| StoreInvariant.StepKeepsInvariant | apps/topology/src/topology-store.ts:141-447 | every call keeps keys, live sources, life cycle, edge totals and a sound name index |
| StoreInvariant.RunInvariant | apps/topology/src/topology-store.ts:141-447 | in every reachable state every edge's source is live, records sit under their own keys, REGISTERED means no activity, ACTIVE and IDLE some, DEAD never occurs, name index entries are sound |
| StoreInvariant.RegisteredMeansSilent | apps/topology/src/topology-store.ts:198-256 | a node shown REGISTERED has reported no activity during its present life |
| StoreInvariant.EdgeLookup | apps/topology/src/topology-store.ts:258-259 | what is found under an edge key is the edge of that source and target |
| Sweeping.OverdueTargetSurvives | apps/topology/src/topology-store.ts:359-405 | a long idle edge that outlives a sweep calls a service that outlives it too, although the targets were collected before any removal |
| Sweeping.SweepFixpoint | apps/topology/src/topology-store.ts:356-408 | a second sweep at the same time changes nothing and emits nothing |
| Sweeping.EarlierSweepAbsorbed | apps/topology/src/topology-store.ts:356-408 | sweeping earlier as well makes no difference to what a later sweep leaves, throttle clocks aside |
| Sweeping.OverdueExactly | apps/topology/src/topology-store.ts:361-368 | a service is removed by a sweep if and only if it is overdue, and then with every edge from it or to it |
| EdgeMetrics.Conservation | apps/topology/src/topology-store.ts:295-343 | flushed plus pending requests equal the clamped batch sizes reported, the same for errors, and errors never exceed requests, whenever the flushes come |
| EdgeMetrics.LatencyConservation | apps/topology/src/topology-store.ts:320-334 | average times count plus pending latency is all the latency reported |
| EdgeMetrics.FlushedTotals | apps/topology/src/topology-store.ts:320-343 | after a flush totals and average are sums and quotient over all reports since creation |
| EdgeMetrics.FlushScheduleIndependence | apps/topology/src/topology-store.ts:313-349 | for one edge: two histories with the same reports end in the same totals and average after a final flush, whatever the flushes before |
| FlushSchedules.RunFlushIndependence | apps/topology/src/topology-store.ts:237-349 | two runs of the store with the same calls, flushed at any times, have the same services and edges and after a final flush show the same totals, errors and averages |
| FlushSchedules.FlushesDoNotMatter | apps/topology/src/topology-store.ts:313-349 | leaving all flushes out of a run keeps everything but what a flush writes |
| EdgeMetrics.TrimAbsorbed | apps/topology/src/topology-store.ts:453-475 | trimming in between does not change a later trim |
| EdgeMetrics.WindowOfHistory | apps/topology/src/topology-store.ts:453-475 | the incrementally trimmed samples are one trim of the full flush history |
| EdgeMetrics.TrimMeaning | apps/topology/src/topology-store.ts:461-463 | a trim drops exactly the leading samples older than the window, never below two |
| EdgeMetrics.RateMeaning | apps/topology/src/topology-store.ts:465-474 | the rate is the requests flushed between the window's first and last sample over their elapsed time, at least 1 ms |
| EdgeHistories.RunHistories | apps/topology/src/topology-store.ts:237-349 | in every run of the store each edge record is the replay of that edge's own reports, flushes and idle marks |
| EdgeHistories.RunConservation | apps/topology/src/topology-store.ts:295-343 | conservation of requests, errors and latency for every edge in every reachable state |
| EdgeHistories.RunWindow | apps/topology/src/topology-store.ts:453-475 | with a clock that does not run backwards, the window refinement for every edge in every reachable state |
| Client.ApplyUpdateView | apps/dashboard/src/hooks/useTopologyStream.ts:23-169 | applyUpdate keeps ids and edge keys distinct and acts on the copy like an update of a keyed store |
| Client.RemoveNodeView | apps/dashboard/src/hooks/useTopologyStream.ts:23-33 | removing a node drops it and the edges from its id or to its name, nothing else |
| Client.UpsertNodeView | apps/dashboard/src/hooks/useTopologyStream.ts:35-53 | append or replace amounts to a map update by id |
| Client.RemoveEdgeView | apps/dashboard/src/hooks/useTopologyStream.ts:114-122 | removing an edge drops the one with its key |
| Client.UpsertEdgeView | apps/dashboard/src/hooks/useTopologyStream.ts:124-143 | append or replace amounts to a map update by key |
| Client.SnapshotsEqualExactly | apps/dashboard/src/hooks/useTopologyStream.ts:57-112 | areSnapshotsEqual holds exactly when the two are permutations of each other up to metadata and snapshot time |
| Client.HookStepView | apps/dashboard/src/hooks/useTopologyStream.ts:198-208 | keeping the old copy when it looks the same loses nothing, as long as metadata does not change |
| Replica.StepDelivers | apps/topology/src/topology-store.ts:141-447 | after every call, whoever agreed and folds its updates can agree again: each change is told or within the throttle or pending, and what the client's own cascade drops is gone from the store |
| Replica.SnapshotAgrees | apps/topology/src/topology-store.ts:415-422 | a snapshot agrees with the store it was taken of |
| Replica.FirstMessage | apps/topology/src/topology-service.ts:134-148 | a watcher that has received the snapshot is in sync |
| Replica.StepInSync | apps/topology/src/topology-service.ts:50-67 | a watcher in sync stays in sync when it folds the updates of one more call |
| Replica.ReplicaAgreement | apps/topology/src/topology-service.ts:50-148 | over every run, after every call, a watcher that joined with a snapshot has exactly the store's node ids and edge keys; nodes agree but for time stamps that lag less than the throttle, edges with nothing pending agree in every field |
| Service.TopologyService.Broadcast | apps/topology/src/topology-service.ts:50-67 | every watcher gets all updates in order, and one whose stream throws is dropped |
| Service.TopologyService.RegisterService | apps/topology/src/topology-service.ts:70-77 | registering and broadcasting keeps every watcher in sync |
| Service.TopologyService.Heartbeat | apps/topology/src/topology-service.ts:78-96 | so does a heartbeat |
| Service.TopologyService.ReportActivity | apps/topology/src/topology-service.ts:97-116 | so does an activity report |
| Service.TopologyService.UnregisterService | apps/topology/src/topology-service.ts:117-124 | so does unregistering, and `removed` answers whether the service was known |
| Service.TopologyService.OnSweepTimer | apps/topology/src/topology-service.ts:154-156 | so does a sweep |
| Service.TopologyService.OnFlushTimer | apps/topology/src/topology-service.ts:158-160 | so does a flush |
| Service.TopologyService.WatchTopology | apps/topology/src/topology-service.ts:134-148 | a new watcher is in sync from its first message on; if that write throws it stays a watcher and is in sync only if there was nothing to show |
| BlockingQueue.StepKeeps | apps/demo-domain/event-pipeline-monolith/src/queue.hpp:16-44 | every step of every thread keeps mutual exclusion, the capacity, first-in first-out order and the cover of items and slots by woken threads |
| BlockingQueue.NoLostWakeup | apps/demo-domain/event-pipeline-monolith/src/queue.hpp:16-44 | in every interleaving, spurious wakeups included: while a consumer sleeps there are at most as many items as woken consumers, while a producer sleeps at most as many free slots as woken producers, nobody sleeps on a closed queue |
| BlockingQueue.StuckOnlyWhenBlocked | apps/demo-domain/event-pipeline-monolith/src/queue.hpp:16-44 | when no thread inside can move, each of them sleeps and its wait condition is false |
| Channels.MonitorRefinesChannel | apps/demo-domain/event-pipeline-monolith/src/queue.hpp:16-44 | each step inside the monitor leaves the queue as it is or is one guarded atomic push, pop or close with the matching reply |
| MonolithThreads.SharedQueue.Push | apps/demo-domain/event-pipeline-monolith/src/queue.hpp:16-25 | past its wait, push enqueues and succeeds, or finds the queue closed and changes nothing |
| MonolithThreads.SharedQueue.Pop | apps/demo-domain/event-pipeline-monolith/src/queue.hpp:27-37 | past its wait, pop takes the oldest item, or finds the queue closed and empty |
| MonolithThreads.Coordinator.ReaderTurn | apps/demo-domain/event-pipeline-monolith/src/threads/reader.cpp:16-27 | for any capacity, what the reader does from one queue operation to the next is one move of the pipeline |
| MonolithThreads.Coordinator.ParserTurn | apps/demo-domain/event-pipeline-monolith/src/threads/parser.cpp:115-184 | so is what any parser does, the last one's close included |
| MonolithThreads.Coordinator.RulesTurn | apps/demo-domain/event-pipeline-monolith/src/threads/rules.cpp:7-24 | so is what the rules thread does: of the events it takes it passes on those of value at least 10 that are no views, and filters the others |
| MonolithThreads.Coordinator.AggregatorTurn | apps/demo-domain/event-pipeline-monolith/src/threads/aggregator.cpp:21-45 | so is what the aggregator does, with the map updated in place and iterated in any order |
| MonolithThreads.Coordinator.WriterTurn | apps/demo-domain/event-pipeline-monolith/src/threads/writer.cpp:15-19 | so is what the writer does |
| MonolithThreads.Coordinator.NobodyReadyMeansStuck | apps/demo-domain/event-pipeline-monolith/src/queue.hpp:18-29 | when every thread waits or has exited, no move of the pipeline is enabled |
| MonolithThreads.Coordinator.Run | apps/demo-domain/event-pipeline-monolith/src/coordinator.cpp:18-61 | for any capacity, any number of parsers and any scheduler the program ends, writes the results of one left-to-right pass, and joins all threads exactly when the output opened or the results fit |
| MonolithControl.RunControl | apps/demo-domain/event-pipeline-monolith/src/coordinator.cpp:18-61 | in every reachable state queues stay within capacity, each is closed exactly when its last producer has left, and `active_parsers` counts the parsers still at work |
| MonolithControl.NothingRefused | apps/demo-domain/event-pipeline-monolith/src/threads/parser.cpp:172-184 | no push is ever refused, and the parsed queue is closed once |
| MonolithControl.NoDeadlock | apps/demo-domain/event-pipeline-monolith/src/coordinator.cpp:18-61 | with at least one parser and any capacity, an unfinished state has an enabled step, unless the writer left at once because its file did not open |
| MonolithControl.MeasureDecreases | apps/demo-domain/event-pipeline-monolith/src/coordinator.cpp:24-57 | every step uses up some of the work left |
| MonolithControl.RunsEnd | apps/demo-domain/event-pipeline-monolith/src/coordinator.cpp:51-57 | no schedule makes more steps than there is work at the start |
| MonolithResults.LinesConserved | apps/demo-domain/event-pipeline-monolith/src/threads/reader.cpp:18-27 | in every reachable state lines read are partitioned among queues, hands, invalid, filtered and aggregated |
| MonolithResults.EachLineOnce | apps/demo-domain/event-pipeline-monolith/src/threads/reader.cpp:18-27 | each line read is in exactly one of these places, once |
| MonolithResults.LineFates | apps/demo-domain/event-pipeline-monolith/src/threads/rules.cpp:8-12 | at the end each line that does not parse is invalid, each parsed to a value of at least 10 and no view is aggregated, every other one filtered; each once |
| MonolithResults.FinalStats | apps/demo-domain/event-pipeline-monolith/src/threads/aggregator.cpp:21-32 | once the aggregator emits, its map is that of one sequential pass, whatever the interleaving |
| MonolithResults.ScheduleIndependence | apps/demo-domain/event-pipeline-monolith/src/threads/aggregator.cpp:21-45 | for every interleaving and any parser count a finished pipeline has written the results of the sequential fold, each once: one for each key that lines of value at least 10 and other than views have, with their number, sum and average |
| MonolithResults.FinalCounters | apps/demo-domain/event-pipeline-monolith/src/threads/parser.cpp:115-165 | at the end read = parsed + invalid and parsed = filtered + aggregated |
| MonolithResults.EndsWellExactly | apps/demo-domain/event-pipeline-monolith/src/threads/writer.cpp:8-20 | a run that cannot go on has ended with all threads joined if and only if the output opened or the results fit |
| MonolithControl.RunOn | apps/demo-domain/event-pipeline-monolith/src/coordinator.cpp:24-57 | every run can be carried on to one that cannot go on |
| MonolithResults.MaximalRun | apps/demo-domain/event-pipeline-monolith/src/coordinator.cpp:18-61 | for every configuration there is a run that cannot go on, with all threads joined if and only if the output opened or the results fit |
| MonolithResults.TwoResultsOneSlot | apps/demo-domain/event-pipeline-monolith/src/threads/writer.cpp:8-13 | a click and a purchase that pass, one result slot and an output file that does not open leave threads that cannot be joined |
| WiredMonolith.RawMoveOf | apps/demo-domain/event-pipeline-monolith/src/queue.hpp:16-44 | an operation that takes effect on the raw queue's monitor is the move its thread's code goes on with, and changes the queue alike |
| WiredRuns.StepRefines | apps/demo-domain/event-pipeline-monolith/src/queue.hpp:16-44 | every step of the program over four monitors is a step inside a monitor that changes nothing else, or one move of the pipeline over atomic queues |
| WiredRuns.Projection | apps/demo-domain/event-pipeline-monolith/src/coordinator.cpp:18-61 | every run over monitors becomes, without the steps inside them, a run over atomic queues to the same state |
| WiredRuns.EnabledMeansStep | apps/demo-domain/event-pipeline-monolith/src/queue.hpp:16-44 | whenever the pipeline over atomic queues can move, some thread of the program can go on without a spurious wakeup |
| WiredRuns.WiredScheduleIndependence | apps/demo-domain/event-pipeline-monolith/src/coordinator.cpp:18-61 | schedule independence, with the contents of every result, down to mutexes, condition variables and wakeups |
| WiredRuns.WiredEndsWellExactly | apps/demo-domain/event-pipeline-monolith/src/coordinator.cpp:51-57 | deadlock freedom down to mutexes: when no thread can go on, spurious wakeups aside, all are joined if and only if the output opened or the results fit |
| Handlers.Forwarder.Data | apps/demo-domain/pipeline-orchestrator/src/pipeline-orchestrator.ts:278-305 | collected events and written requests together are always what came in, in order; below the batch size nothing is written |
| Handlers.Forwarder.End | apps/demo-domain/pipeline-orchestrator/src/pipeline-orchestrator.ts:307-311 | the remainder is flushed, then the stream is ended |
| Handlers.Forwarder.FlushBatch | apps/demo-domain/pipeline-orchestrator/src/pipeline-orchestrator.ts:278-287 | an empty batch writes nothing |
| Handlers.Aggregator.AddEvent | apps/demo-domain/aggregate-service/src/aggregate.ts:31-42 | the Map after one event: one more in the count and its value more in the sum of its key, new keys at the end |
| Handlers.Aggregator.Results | apps/demo-domain/aggregate-service/src/aggregate.ts:44-55 | one row for each key, in insertion order, with its count, its sum and their quotient |
| Handlers.AggregateCall.Data | apps/demo-domain/aggregate-service/src/aggregate-service.ts:74-140 | after any requests the call holds the fold of the ordinary events and the scores of the work items received |
| Handlers.AggregateCall.End | apps/demo-domain/aggregate-service/src/aggregate-service.ts:95-158 | the responses carry the answer for all events received, one by one or as one batch |
| Handlers.StreamEvents | apps/demo-domain/ingest-service/src/ingest-service.ts:166-222 | whatever the batch size, the timer and the moment of cancelling, the numbered lines up to the cut are sent once and in order; the cut is the end, the limit or the cancelling, whichever comes first |
| SplitRoute.StepKeeps | apps/demo-domain/pipeline-orchestrator/src/pipeline-orchestrator.ts:274-481 | every step of orchestrator and services keeps, stage by stage, that requests and buffer make up the input and responses the stage's image of what it took |
| SplitRoute.CutsMakeNoDifference | apps/demo-domain/pipeline-orchestrator/src/pipeline-orchestrator.ts:274-481 | however the stages interleave and the buffers cut, what reaches the sink is each stage applied to the whole list of events |
| SplitResults.RoutesCompared | apps/demo-domain/rules-service/src/rules-service.ts:71-129 | both routes build the same table; the batched one drops every work item, the unbatched one keeps those processed and scored |
| SplitResults.RoutesAgreeExactly | apps/demo-domain/rules-service/src/rules-service.ts:71-129 | for every batch size the two result sequences are equal if and only if no event is a work item that is processed and scored |
| SplitResults.BatchingPreservesMeaning | apps/demo-domain/pipeline-orchestrator/src/pipeline-orchestrator.ts:274-481 | the same for whole runs of the two routes, each interleaved in any way |
| SplitResults.WorkItemsTellRoutesApart | apps/demo-domain/rules-service/src/rules-service.ts:77-95 | any work item that is processed and scored, alone, makes the routes differ, for every batch size |
| SplitResults.OrderOfFirstAppearance | apps/demo-domain/aggregate-service/src/aggregate.ts:44-55 | results come in the order in which their keys first appeared |
| SplitTallies.EnrichExactly | apps/demo-domain/rules-service/src/rules.ts:21-36 | what the rules let through, and that nothing else about an event changes |
| SplitTallies.ThroughExactly | apps/demo-domain/rules-service/src/rules-service.ts:71-129 | from the line to the enriched event: clicks and purchases of at least 10 on either route, processed work items on the unbatched one, nothing else |
| SplitTallies.OrderOfEvents | apps/demo-domain/aggregate-service/src/aggregate.ts:31-55 | keys come in the order of the first ingested event that counts for each |
| SplitTallies.SinkTallies | apps/demo-domain/aggregate-service/src/aggregate-service.ts:95-158 | for every interleaving and cut, what arrives is one row for each key that events count for, with their number, sum and average, and after them, on the unbatched route only, one row for each scored work item, in order |
| SplitResults.SplitMatchesMonolith | apps/demo-domain/aggregate-service/src/aggregate.ts:28-58 | given a common parse, the split pipeline on either route and the monolith under any schedule write the same results, each once, with the number, sum and average of the lines that count |
| SplitProgress.NoDeadlock | apps/demo-domain/pipeline-orchestrator/src/pipeline-orchestrator.ts:274-481 | until the sink is told of the end, somebody can move |
| SplitProgress.RunsEnd | apps/demo-domain/pipeline-orchestrator/src/pipeline-orchestrator.ts:274-481 | no run makes more than 7n + 8 moves for n events, and one that cannot go on has delivered its results |
| SplitProgress.MaximalRun | apps/demo-domain/pipeline-orchestrator/src/pipeline-orchestrator.ts:274-481 | on either route there is a run that delivers its results |
| SplitSizes.BatchSizes | apps/demo-domain/pipeline-orchestrator/src/pipeline-orchestrator.ts:276-383 | for batch size b no request is empty; parse requests hold b, rules requests at most 2b - 1, aggregate requests at most 3b - 2, and all but a final flush at least b |
| SplitSizes.ParseRequests | apps/demo-domain/pipeline-orchestrator/src/pipeline-orchestrator.ts:276-311 | n events make n / b parse requests, rounded up |
| ReporterInvariant.StepKeepsInvariant | packages/topology-reporter/src/topology-reporter.ts:133-462 | every call, response, timer and stream event keeps the reporter's invariant |
| ReporterInvariant.OneCallInFlight | packages/topology-reporter/src/topology-reporter.ts:133-165 | before shutdown at most one registration call is in flight, a waiting retry loop waits for one that is, and after shutdown there is no id, no stream and no interval in the field |
| ReporterInvariant.StrandsExactly | packages/topology-reporter/src/topology-reporter.ts:324-369 | a step strands an interval exactly when it accepts a handle while the field holds one, and only a throwing first write leaves one there |
| ReporterInvariant.IntervalsAfterShutdown | packages/topology-reporter/src/topology-reporter.ts:238-265 | the intervals that fire after shutdown are exactly those stranded before: none if every first write went through |
| ReporterInvariant.IntervalOutlivesShutdown | packages/topology-reporter/src/topology-reporter.ts:356-363 | a throwing first heartbeat, another registration and shutdown leave an interval running |
| ReporterInvariant.ConnectingExactly | packages/topology-reporter/src/topology-reporter.ts:301-357 | with automatic reconnection on, a step leaves the reporter registered or reconnecting if and only if it is not a bad response to the loop |
| ReporterInvariant.RunConnecting | packages/topology-reporter/src/topology-reporter.ts:395-456 | over every run without such a response, stream failures at any time included |
| ReporterInvariant.FirstWriteThrows | packages/topology-reporter/src/topology-reporter.ts:338-356 | a first heartbeat that cannot be written leaves a started reporter unregistered with nobody retrying |
| ReporterInvariant.ShutdownFinal | packages/topology-reporter/src/topology-reporter.ts:238-265 | after shutdown no id is ever taken on and nothing is sent but what a caller of register asks for |
| ReporterInvariant.BackOff | packages/topology-reporter/src/topology-reporter.ts:458-462 | the k-th failure in a row, from 0, is followed by a wait of min(15000, 1000 * 2^k) ms despite the saturated exponent |
| ReporterLaws.HeldExactly | packages/topology-reporter/src/topology-reporter.ts:301-322 | in every run the reporter holds exactly the handle its events left it, with both streams and the interval, and the number of heartbeats written under it |
| ReporterLaws.SentExactly | packages/topology-reporter/src/topology-reporter.ts:133-456 | what every event of every run sends: at most one message, of which kind and with which contents; calls are numbered in turn and pending until settled |
| ReporterLaws.UnregistersExactly | packages/topology-reporter/src/topology-reporter.ts:238-265 | the first shutdown sends one call to unregister the id held, if one is held, and nothing else ever does |
| ReporterLaws.BeatsExactly | packages/topology-reporter/src/topology-reporter.ts:338-363 | a heartbeat is sent exactly when its timer fires or a handle is taken on, for the id held, with the health set last and the next number |
| ReporterLaws.DownSends | packages/topology-reporter/src/topology-reporter.ts:238-265 | after shutdown only a caller of register makes the reporter send anything |
| ReporterClass.TopologyReporter.Register | packages/topology-reporter/src/topology-reporter.ts:133-165 | returns at once when registered, joins a call in flight, else makes one |
| ReporterClass.TopologyReporter.Start | packages/topology-reporter/src/topology-reporter.ts:170-176 | starts the retry loop, once |
| ReporterClass.TopologyReporter.ShutdownNow | packages/topology-reporter/src/topology-reporter.ts:238-265 | forgets id, streams and promises and sends one call to unregister the id held, if any |
| ReporterClass.TopologyReporter.OnResponse | packages/topology-reporter/src/topology-reporter.ts:301-322 | takes on the id and starts the streams, unless shutting down or without a handle |
| ReporterClass.TopologyReporter.HandleStreamGone | packages/topology-reporter/src/topology-reporter.ts:395-427 | forgets the connection and triggers reconnection, if reconnection is on |
| ReporterClass.TopologyReporter.ConnectWithRetry | packages/topology-reporter/src/topology-reporter.ts:438-456 | one turn of the retry loop up to where it suspends |
| ReporterClass.TopologyReporter.SettleCall | packages/topology-reporter/src/topology-reporter.ts:158-164 | what a settled call does to the promise kept and to the loop that awaits it |
| ReporterClass.TopologyReporter.BeatNow | packages/topology-reporter/src/topology-reporter.ts:338-354 | a heartbeat carries the id held and the next sequence number |
| ReporterClass.TopologyReporter.NextRetryDelayMs | packages/topology-reporter/src/topology-reporter.ts:458-462 | the delay and the saturating attempt counter |
| Zombies.SendsOnlyCurrent | packages/topology-reporter/src/topology-reporter.ts:338-354 | heartbeats and unregistrations carry only the id the reporter holds or has just taken on |
| Zombies.LifeExactly | apps/topology/src/topology-store.ts:361-368 | with messages delayed, reordered or lost in any way, an id stays with the store if and only if it is not unregistered and no sweep comes more than interval times multiplier after its last heartbeat |
| Zombies.RegisteredLife | apps/topology/src/topology-store.ts:141-181 | the same from the delivery of the registration on, with the store's own interval and multiplier |
| Zombies.ShutdownUnregisters | packages/topology-reporter/src/topology-reporter.ts:238-265 | shutting down puts the call that unregisters the id held under way |
| Zombies.UnregisteredForGood | apps/topology/src/topology-store.ts:424-447 | once that call is delivered the id and the edges it was the source of are out of the store for good, without any sweep |
| Zombies.NoZombies | apps/topology/src/topology-store.ts:356-368 | an id the reporter has dropped is gone for good, with the edges it was the source of, after the first sweep past its deadline |
| Zombies.LettingGoDrops | packages/topology-reporter/src/topology-reporter.ts:420-427 | a reset or shutdown leaves the old id dropped as soon as, and no sooner than, none of its heartbeats is under way |
| Zombies.UnclaimedIsDropped | packages/topology-reporter/src/topology-reporter.ts:301-305 | an id whose response was given up on, or arrives after shutdown, is dropped at once |

## Left out

- Aliasing: records and updates are values, held in maps that the methods reassign; the original shares node and edge objects between records and updates, and has made all its changes to them by the time the broadcast serialises them.
- BlockingQueue.NoLostWakeup: the blocking queue under concurrency is a transition system over threads, not a class, because Dafny's methods do not interleave; `MonolithThreads.SharedQueue` holds its code past the wait.
- MonolithThreads.Coordinator.Run: a thread's loop is cut into turns at its queue operations, for a scheduler to interleave.
- WiredRuns: a fair scheduler is not modelled; a thread woken spuriously forever takes infinitely many steps.
- Monolith counters: a counter is bumped in the same step as the pop or push beside it; timing metrics are left out.
- Monolith: integers do not overflow, the input file that does not open counts as empty, and threads can be created.
- SplitRoute.CutsMakeNoDifference: streams deliver every message once and in order; errors on streams, which end the process, and counters that are only printed are left out.
- Stages.Parse: JSON parsing, recognition, processing and scoring of work items are uninterpreted functions, the same on both routes; a score without a checksum, which the two aggregate handlers treat differently, is left out.
- Handlers.StreamEvents: the workload that generates work items and back-pressure; a write after cancelling counts as sent.
- A batch size that is not a number is left out; zero and negative sizes are covered.
- Event values are integers on the wire; their decimal strings read back as the same number.
- Replica.ReplicaAgreement: holds for a direct watcher; the server-sent-events proxy `topology-proxy.ts` fetches its snapshot separately, with no order between the two guaranteed.
- Completeness of `serviceNameIndex`: it is never read, and with two services of one name it loses the name when either goes; only its entries are shown sound.
- IEEE rounding of averages and rates.
- Zombies.LifeExactly: nothing is claimed about when timers fire or messages arrive, so survival is stated over what is heard, not over what is sent.
- TopologyReporter: deadlines, logging, credentials and `status`; a step takes all microtasks up to the next timer or I/O event together, so user code that resumes between them is not modelled.
- Supervisor, broker, calculator services, dashboard components, the Rust parser and the demo compute code.

# Verified model of the mock server's stateful core

The mock server answers HTTP requests from a table of static, proxy and dynamic routes, runs user scripts in a pool
of container workers, and moves messages between broker pools ("ESB"): a scheduler runs read tasks and write tasks
on RabbitMQ queues and Kafka topics, and a reader whose pool has an ESB record forwards what it reads, through an
optional mapper script, to another pool's write queue.

This project models that core in Dafny and proves what it keeps over every run. Concurrency is modelled as state
machines whose steps are the lock-protected sections, channel operations and external calls of the Go code, taken by
any number of threads in any order; what brokers, containers, the database and the clock answer is a parameter of
the step. The queue, the scheduler, the watcher, the collections and the route handlers also stand here as Dafny
classes, as the source has them; their methods say which steps of the machine they take. The loops of the read and
write tasks say which state the machine's reader or writer comes to by doing the same.

| file | what it holds |
|---|---|
| `Basics.dfy` | subsequences, batches, and the bag of things held in a map of threads |
| `BlockingQueue.dfy` | the condition-variable queue: one section, whole runs, and the object |
| `SyncSet.dfy`, `TaskScheduler.dfy`, `SchedulerObject.dfy` | the scheduler: read-task exclusion, shutdown, and the object |
| `EsbPipeline.dfy`, `Esb.dfy` | the ESB pair on top of the scheduler, and the forwarding step |
| `ReadLoops.dfy`, `RabbitMq.dfy`, `Kafka.dfy` | the read and write loops, each tied to its part of the pair's machine |
| `WorkerPool.dfy`, `Watcher.dfy` | circulation of worker handles, and the watcher object |
| `Shutdown.dfy` | the order in which server, scheduler and pool are stopped |
| `CachedCollection.dfy`, `CollectionObject.dfy`, `Routes.dfy` | cached collections under the readers/writer lock |
| `FileStorage.dfy`, `DynamicRoutes.dfy` | script files, and the dynamic-route handlers over routes and files |
| `TaskIds.dfy`, `CodeWrappers.dfy`, `EsbArgs.dfy` | task ids, script wrapping, and the JSON arguments of a mapper |

Where the code and its evident intent differ, the code is modelled and the difference is a result:

- `Close` wakes only the waiters on `empty`; `DrainingReleasesEveryProducerIff` says exactly when a bounded queue
  strands a parked producer. The scheduler uses unbounded queues only.
- `Stop` closes the error channel before it waits; `ClosedChannelPanicIff` says exactly when a late error can meet
  the closed channel, and `LateErrorPanics` is a run in which it does.
- `updateRoute` caches the whole route but stores only two fields; `RoutesAreFaithfulIff` says exactly when the routes
  stand for a plain map, `RoutesAreTransparentUpToUrl` what holds of them in every run, and `NoisyRunCanForget` that
  every run that changes a proxy's URL can go on to answer with the old one.
- `processWorkerInfo` tests two independent conditions; `ProcessInfoConservesIff` says exactly when a handle is not
  doubled, and `PausedWorkerIsLentTwice` has two callers use one worker.
- `BorrowWorker` drops the handle when an inspection fails, and the repair loop drops one whose container is neither
  running nor broken, or whose replacement does not come up. `HandlesAreConserved` counts exactly how many workers
  are left; `PoolCanLoseAll` and `LostPoolServesNobody` show a pool of any size that never serves anybody again.
- Kafka's read loop tests the wrong error variable, so a failed log write goes unnoticed: `KafkaLogIsShort`.
- RabbitMQ's read loop does not notice that the broker has closed its channel, which then yields empty messages; they
  count as consumed, and are forwarded and logged like any other.
- A generated script name has a resolution of one second; `PostWriteKeepsIff` and `RunKeepsIff` say exactly when a
  repeated name does harm. It does so even if no live route has it: `SameSecondOverwrites`,
  `InterleavedPostsOverwrite`, `StalePutOverwrites`.
- A PUT on a dynamic route is answered before the script is written; `PutServesAckIff` says exactly when the path
  serves the acknowledged code, and `FailedPutIsAcknowledged` and `PutsCanSwap` are runs in which it does not.
- A script file whose last line is cut still reads back as the whole code: `FrontReadsIff`.
- Nothing is escaped in a mapper's arguments; `RoundTripIff` says exactly which messages survive.
- `DeleteOne` never answers that nothing was found, so removing an absent key succeeds.

## Model

| member | source | states |
|---|---|---|
| Monitor.PutKeepsMonitor | internal/util/blocking_queue.go:24-39 | one section of `Put` keeps the monitor invariant: waiters and woken apart, every parked consumer or producer matched by woken ones, length within the bound |
| Monitor.GetKeepsMonitor | internal/util/blocking_queue.go:41-56 | one section of `Get` keeps the same invariant |
| Monitor.CloseKeepsMonitor | internal/util/blocking_queue.go:58-66 | `Close` keeps it too, although it wakes consumers only |
| Monitor.QuiescentWaitersAreJustified | internal/util/blocking_queue.go:28-30 | when nobody is on its way, parked consumers mean an open empty queue and parked producers a full or closed one |
| QueueRuns.NoLostWakeup | internal/util/blocking_queue.go:24-66 | in every reachable state with any number of producers and consumers, woken consumers number at least the elements while one is parked, and woken producers at least the free slots before `Close` |
| QueueRuns.RefinesFifo | internal/util/blocking_queue.go:20-66 | accepted puts are the delivered gets followed by the contents and what a clearing close dropped; elements come before any None; the bound is never exceeded |
| QueueRuns.NoneIsFinal | internal/util/blocking_queue.go:49-55 | a None means closed and empty for ever, with nothing accepted afterwards |
| QueueRuns.ClosedQueueWakesOneProducerPerElement | internal/util/blocking_queue.go:49-66 | after `Close` exactly one parked producer is woken per element taken, and nobody else, whatever happens, further closes included |
| QueueRuns.DrainingReleasesEveryProducerIff | internal/util/blocking_queue.go:58-66 | after a `Close` every parked producer has been released if and only if no more were parked than elements have been taken since; after a clearing one none are |
| QueueRuns.CloseCanStrandAProducer | internal/util/blocking_queue.go:58-66 | a reachable state in which a clearing close leaves a producer parked in every continuation |
| QueueObject.BlockingQueue.Bounded | internal/util/blocking_queue.go:74-86 | a new queue of the given size, open and empty, nobody waiting |
| QueueObject.BlockingQueue.Unbounded | internal/util/blocking_queue.go:88-90 | a new queue of size -1 |
| QueueObject.BlockingQueue.Put | internal/util/blocking_queue.go:24-39 | the object takes one section of `Put`: parks exactly when open and full, is rejected exactly when closed, otherwise appends |
| QueueObject.BlockingQueue.Get | internal/util/blocking_queue.go:41-56 | parks exactly when open and empty, answers None exactly when closed and empty, otherwise hands out the oldest element |
| QueueObject.BlockingQueue.Close | internal/util/blocking_queue.go:58-66 | closes, clears if asked, wakes every consumer and leaves the producers |
| SyncSet.SyncSet.Insert | internal/util/sync_set.go:12-24 | succeeds exactly when the value was absent, and the value is in the set afterwards |
| SyncSet.SyncSet.Remove | internal/util/sync_set.go:26-30 | the value is out of the set, everything else stays |
| TaskScheduler.StepKeepsReads | internal/brokers/mp_task_scheduler.go:89-94 | every step keeps the read side's accounting of ids |
| TaskScheduler.ReadTasksExclude | internal/brokers/mp_task_scheduler.go:89-147 | in every run the running ids are exactly the disjoint union of ids about to be queued, queued, held by a read worker, or stranded by a close; no id is queued twice, held twice, or queued while held |
| TaskScheduler.SuppressedSubmitIsPending | internal/brokers/mp_task_scheduler.go:89-94 | on an open queue a submit is suppressed if and only if the same id is still pending |
| SchedulerShutdown.WaitGroupCountsWorkers | internal/brokers/mp_task_scheduler.go:73-83 | in every run the wait group is zero exactly when every worker routine has returned |
| SchedulerShutdown.NoTaskStarts | internal/brokers/mp_task_scheduler.go:64-71 | once both queues are closed they stay empty and no worker starts a task |
| SchedulerShutdown.ShutdownIsBounded | internal/brokers/mp_task_scheduler.go:131-180 | from then on the workers together take no more steps than the measure of their phases |
| SchedulerShutdown.SomeoneCanMove | internal/brokers/mp_task_scheduler.go:131-180 | as long as the wait group is not zero some worker can take a step: nobody is parked on a closed queue |
| SchedulerShutdown.StalledShutdownHasJoined | internal/brokers/mp_task_scheduler.go:64-71 | a run that can go no further without a late error has joined all workers, so the wait in `Stop` ends |
| SchedulerShutdown.ClosedChannelPanicIff | internal/brokers/mp_task_scheduler.go:68-113 | after the error channel is closed a send on it can still happen if and only if some worker has a task in hand |
| SchedulerShutdown.LateErrorPanics | internal/brokers/mp_task_scheduler.go:64-113 | for every task id, a run from `Init` in which a task that fails after `Stop` has closed the channel panics |
| SchedulerObject.Scheduler.constructor | internal/brokers/mp_task_scheduler.go:55-62 | `Init` gives the machine's initial state |
| SchedulerObject.Scheduler.SubmitReadTask | internal/brokers/mp_task_scheduler.go:89-94 | the id is running afterwards, and is queued exactly when it was not running and the queue is open |
| SchedulerObject.Scheduler.SubmitWriteTask | internal/brokers/mp_task_scheduler.go:96-99 | the task is appended if the queue is open and vanishes silently if not |
| SchedulerObject.Scheduler.SubmitError | internal/brokers/mp_task_scheduler.go:101-113 | sends if there is room, drops if not, and panics exactly when the channel is closed |
| SchedulerObject.Scheduler.Start | internal/brokers/mp_task_scheduler.go:73-83 | the spawn loops are a run of the machine that leaves the wait group at the number of routines started |
| SchedulerObject.Scheduler.Stop | internal/brokers/mp_task_scheduler.go:64-68 | closes and clears both queues and then the error channel, in that order, as three steps of the machine |
| SchedulerObject.Scheduler.RunReader | internal/brokers/mp_task_scheduler.go:131-147 | a read worker alone is a run of the machine that takes every queued task in order, releases each id, and then waits or, on a closed queue, returns |
| SchedulerObject.Scheduler.RunWriter | internal/brokers/mp_task_scheduler.go:165-180 | a write worker alone takes every queued task in order and then waits or returns |
| EsbPipeline.NextKeepsStep | internal/brokers/esb.go:37-55 | the pair's read and write loops stay in step with the scheduler's workers |
| EsbConservation.EsbConserves | internal/brokers/esb.go:37-55 | in every run with any number of write workers and either broker on either side, consumed messages are, as a multiset, those forwarded, buffered and dropped by readers; emitted ones are those published, held or in flight, queued and dropped; with the empty mapper the two join end to end |
| EsbOrder.OneReader | internal/brokers/mp_task_scheduler.go:139-145 | the scheduler's exclusion makes the reader of a pool unique |
| EsbOrder.EsbPreservesOrder | internal/brokers/rabbitmq.go:176-199 | with the empty mapper and one write worker, published and in-flight messages are an order-preserving subsequence of those consumed; with no drops they are equal, so the published sequence is a prefix of the consumed one |
| EsbReadLog.ReadLogIsOrdered | internal/brokers/kafka.go:132-173 | across any sequence of readers the log is the consumed messages in order, short of exactly the failed log writes; it is all of them if and only if no write failed and none is under way; for RabbitMQ at most one is missing per reader, and only for readers that ended because of it |
| EsbReadLog.KafkaLogIsShort | internal/brokers/kafka.go:138-148 | for every message, a run in which a Kafka reader consumes it, fails to log it, and ends without an error |
| Esb.RunMapper | internal/brokers/esb.go:14-35 | the mapper's output comes back if and only if a running worker was found; the borrowed handle is returned on every path; one is lost if and only if an inspection error decides the search |
| Esb.SubmitToESB | internal/brokers/esb.go:37-55 | exactly one write task with the whole batch on success and none on failure; success is reported also when the closed queue drops the task |
| RabbitMq.ReadTask.SelectLoop | internal/brokers/rabbitmq.go:176-199 | the loop alone: what it consumed, flushed, logged and still holds, and which event ended it |
| RabbitMq.ReadTask.Read | internal/brokers/rabbitmq.go:150-200 | at the end of any sequence of events consumed messages are the flushed batches followed by the unflushed rest, no batch is empty, without a record nothing is flushed, the log lacks at most the last message, each error is reported exactly in its case, and the machine's reader comes to the same |
| RabbitMq.ReaderFollows | internal/brokers/rabbitmq.go:176-199 | the machine's reader goes through every sequence of events that does not end the loop, and then holds, has logged and has forwarded what the loop does |
| RabbitMq.Write | internal/brokers/rabbitmq.go:216-242 | logged is a prefix of published and published of the task's messages, at most one apart; all equal exactly on success; the failing message is the reported one; the machine's writer publishes the same |
| Kafka.ReadTask.Read | internal/brokers/kafka.go:105-174 | the same accounting, with the one batch that is cleared although its submission failed, and a log of exactly the messages whose log write succeeded; the machine's reader comes to the same |
| Kafka.ReadTask.PollLoop | internal/brokers/kafka.go:134-165 | the poll goroutine on its own: what it consumed, flushed, cleared and logged at the end of any sequence of polls, and which poll ended it |
| Kafka.ReaderFollows | internal/brokers/kafka.go:134-162 | the machine's reader goes through every sequence of polls that does not end the loop, and then holds, has logged, missed and forwarded what the loop does |
| ReadLoops.StoredIsSubseq | internal/brokers/kafka.go:138-148 | the Kafka read log is an order-preserving subsequence of the consumed messages |
| Kafka.Write | internal/brokers/kafka.go:190-247 | everything is produced before the first report is awaited; on success as many deliveries are logged as there are messages, otherwise the first one that fails decides; the machine's writer takes the same messages |
| Kafka.LoggedWereProduced | internal/brokers/kafka.go:219-242 | however `write` ends, if no message is reported more often than produced then nothing else is logged and nothing twice, and a log of the full length is a permutation of the messages |
| WorkerPool.StepKeepsPool | internal/coderun/watcher.go:130-189 | every channel operation and inspection keeps each handle at one place and within capacity, if no status is both running and broken |
| WorkerPool.HandlesAreConserved | internal/coderun/watcher.go:102-252 | in every run every handle ever made is at exactly one place or lost, no worker is lent twice or waits twice, and the workers in circulation, with one being started, are the configured number less one for each failed inspection of a caller, each container that is neither running nor broken, and each replacement that does not come up |
| WorkerPool.PoolCanLoseAll | internal/coderun/watcher.go:239-242 | for every number of workers, a run that leaves the pool without any |
| WorkerPool.LostPoolServesNobody | internal/coderun/watcher.go:229-252 | after as many losses as workers no caller gets one in any continuation |
| WorkerPool.SendersHaveRoom | internal/coderun/watcher.go:102-252 | whoever stands before a send, borrower or repair loop, finds room in the channel, so the send can happen at once |
| WorkerPool.RepairLoopComesBack | internal/coderun/watcher.go:169-189 | outside its `select` the repair loop can always step, each step bringing it nearer to it |
| WorkerPool.ProcessInfoOutcome | internal/coderun/watcher.go:158-167 | which channels get the handle, for every combination of status flags |
| WorkerPool.ProcessInfoConservesIff | internal/coderun/watcher.go:158-167 | the handle ends up in one place at most if and only if the container is not both running and broken |
| WorkerPool.PausedWorkerIsLentTwice | internal/coderun/watcher.go:158-167 | a run in which, after a status that is both, two callers use the only worker at once |
| Watcher.Watcher.StartNewWorker | internal/coderun/watcher.go:130-156 | a fresh handle joins the workers channel exactly when the container comes up |
| Watcher.Watcher.Init | internal/coderun/watcher.go:209-225 | the start loop fills the channel with the configured number of distinct handles and starts the repair loop, which is the machine's initial state; or it stops at the first container that does not come up and closes the channels |
| Watcher.Watcher.BorrowWorker | internal/coderun/watcher.go:229-252 | a run of the machine that returns the first handle in channel order whose container runs; those before it move to the repair channel in order; it costs the pool a worker exactly if an inspection fails |
| Watcher.Watcher.Return | internal/coderun/watcher.go:102-104 | a run of the machine: the handle goes to the end of the workers channel |
| Watcher.Watcher.ProcessWorkerInfo | internal/coderun/watcher.go:158-167 | a run of the machine: the handle goes to the workers channel if its container runs, to the repair channel if it is broken, nowhere if neither |
| Watcher.InfoKeepsPoolIff | internal/coderun/watcher.go:158-167 | that keeps the invariant of the pool if and only if the status is not both |
| Watcher.ChannelsFit | internal/coderun/watcher.go:209-210 | what the methods ask of the channels is what the invariant of the pool gives |
| Watcher.Watcher.RepairOne | internal/coderun/watcher.go:175-184 | one round is a run of the machine: the oldest handle is replaced, promoted, requeued or dropped |
| Watcher.Watcher.RepairLoop | internal/coderun/watcher.go:169-189 | for any inspections, the rounds until the channel is empty or a send has to wait are a run of the machine; if no status is both running and broken no send has to, the invariant stays, and one worker is lost for each round that loses one |
| Watcher.Watcher.Stop | internal/coderun/watcher.go:254-258 | closes the channels once the repair loop has returned |
| Shutdown.ShutdownOrderIsSafe | internal/control/components.go:69-86 | in every run of server, scheduler and pool, once the pool's channels are closed nobody holds a worker, the repair loop has returned, and no operation on either channel can happen |
| Shutdown.NobodyBorrows | internal/control/components.go:73-81 | after the server and the scheduler are down nobody borrows and nobody ever will |
| CachedCollection.RunKeeps | internal/util/guarded_run.go:5-15 | from any consistent state, a run keeps readers out while a writer holds the lock, cached entries true, loaded values current, and results those of a plain map |
| CachedCollection.CacheIsTransparent | internal/database/routes.go:28-111 | with any number of readers filling the cache under the read lock, writers, evictions and failures, every result is the one a plain map gives, every cached entry is the stored row, and every loaded value is still current when published, provided updates store what they cache |
| CachedCollection.CacheWithoutUpdatesIsTransparent | internal/database/esb_records.go:28-90 | ESB records and message pools, which are never updated, need no condition |
| CachedCollection.UpdateCoheresIff | internal/database/routes.go:77-98 | after an update the cache agrees with the store if and only if the stored row is the cached value |
| CachedCollection.FaithfulAlongIff | internal/database/routes.go:77-98 | a run stands for a plain map in every state if and only if every update stores what it caches |
| CollectionObject.Collection.Get | internal/database/message_pools.go:80-90 | a lookup is a run of the machine; on a coherent object it answers like a plain map and fills the cache on a miss |
| CollectionObject.Collection.Add | internal/database/message_pools.go:47-61 | a taken key is refused, a free one is stored and cached |
| CollectionObject.Collection.Remove | internal/database/message_pools.go:63-78 | the key is gone from store and cache; an absent key is no error |
| CollectionObject.Collection.Update | internal/database/routes.go:77-98 | the object stays coherent exactly when the row stored is the value cached |
| Routes.UpdateStoresRouteIff | internal/database/routes.go:79-95 | for rows made by the typed endpoint functions the update stores what it caches, or matches nothing, unless it changes a proxy's URL |
| Routes.QuietIsFaithful | internal/database/mongo.go:51-139 | in a run of the typed endpoint functions every update stores what it caches if and only if none changes the URL of a stored proxy |
| Routes.RoutesAreFaithfulIff | internal/database/routes.go:28-111 | a run of the typed functions stands for a plain map in every state if and only if no update in it changes the URL of a stored proxy |
| Routes.RoutesAreTransparent | internal/database/routes.go:28-111 | without such an update every result is a plain map's, every cached entry is the stored row, and every load is current |
| RoutesUpToUrl.RoutesAreTransparentUpToUrl | internal/database/routes.go:28-111 | in every run of the typed functions, proxy updates and all, everything but the URLs of proxies is a plain map's; cached static and dynamic routes are the stored rows, and lookups that find one answer exactly |
| Routes.NoisyRunCanForget | internal/database/routes.go:85-95 | every run that changes the URL of a stored proxy, cut at the first such change, can go on so that a lookup answers as no plain map would |
| Routes.ProxyUpdateIsForgotten | internal/database/routes.go:85-95 | for every path and two URLs, a run from the empty collection in which an updated proxy URL reverts after an eviction |
| Routes.ListPaths | internal/database/routes.go:113-132 | the listing holds the path of every stored route of the type exactly once, in cursor order, unless the query or the cursor fails |
| FileStorage.FileStorage.Write | internal/util/file_storage.go:83-107 | whatever sizes the partial writes have, success leaves exactly the data, a failed write a proper front of it, and a failed creation nothing |
| FileStorage.FileStorage.Read | internal/util/file_storage.go:72-81 | the contents, or an error exactly if there is no such file or it cannot be read |
| FileStorage.SameNameIff | internal/util/file_storage.go:109-111 | two generated names are equal if and only if their time stamps are |
| DynamicRoutes.StepKeepsIff | internal/server/dynamic_routes_api.go:64-158 | every step of every handler keeps each live route's file holding its last write, each script to one route, and every handler under way aimed at its own file, but for the write of a POST, which does so exactly if its name does no harm |
| DynamicRoutes.PostWriteKeepsIff | internal/server/dynamic_routes_api.go:74-81 | the write of a POST does no harm, whatever its outcome, if and only if the file is not created, or is cut short where whoever needs the file finds the same, or is complete under a name no live route, other POST or PUT under way has |
| DynamicRoutes.RunKeepsIff | internal/server/dynamic_routes_api.go:64-158 | a run keeps all that in every state if and only if every name in it does no harm where it is used |
| DynamicRoutes.RoutesServeLastCode | internal/server/dynamic_routes_api.go:30-158 | in every such run, with any interleaving of POST, PUT and DELETE handlers and of changes to other routes, every path answers with the code last written for it and one newline, as far as the write went, and no two live routes share a script |
| DynamicRoutes.FreshNamesServe | internal/server/dynamic_routes_api.go:30-158 | so it is if no name is generated twice |
| DynamicRoutes.FrontReadsIff | internal/server/dynamic_routes_api.go:54-61 | a file that was cut short reads back as the code and one newline if and only if at most a part of its last line is missing |
| DynamicRoutes.PutServesAckIff | internal/server/dynamic_routes_api.go:111-136 | after an uninterrupted PUT, acknowledged at its lookup, the path serves its code if and only if the write was complete or far enough along, or nothing was written and the path served that code before |
| DynamicRoutes.FailedPutIsAcknowledged | internal/server/dynamic_routes_api.go:111-136 | a reachable state in which an acknowledged code was not written and the old one is served |
| DynamicRoutes.PutsCanSwap | internal/server/dynamic_routes_api.go:101-136 | a reachable state in which two overlapping PUTs were written in the other order |
| DynamicRoutes.PostWriteServesIff | internal/server/dynamic_routes_api.go:74-81 | the live routes keep their files if and only if the write leaves those that have its name as they were; for a complete write over a complete one that means the same code |
| DynamicRoutes.PostAddHoldsIff | internal/server/dynamic_routes_api.go:83-92 | adding the route of a POST keeps every live route's file holding its code if and only if the file under the posted name still holds the posted code |
| DynamicRoutes.PostAddDistinctIff | internal/server/dynamic_routes_api.go:83-92 | and keeps the scripts distinct if and only if its name is no live route's script |
| DynamicRoutes.SameSecondOverwrites | internal/util/file_storage.go:109-111 | two POSTs with one name, one after the other: the first path answers with the second path's code |
| DynamicRoutes.InterleavedPostsOverwrite | internal/util/file_storage.go:109-111 | two POSTs with one name that both write before either is added: the same, though no live route ever has the name of another |
| DynamicRoutes.StalePutOverwrites | internal/server/dynamic_routes_api.go:111-136 | a PUT that looked a script up before its route was deleted writes over the file of a POST that got the same name |
| DynamicRoutesObject.Handlers.Post | internal/server/dynamic_routes_api.go:64-99 | a run of the machine: accepted if and only if the script could be written, the store takes the route and the path is free; a conflict leaves the table alone and the script file behind |
| DynamicRoutesObject.Handlers.Put | internal/server/dynamic_routes_api.go:101-137 | a run of the machine: missing path and wrong type are told apart; once the script is found the answer is fixed, however the write goes; the table never changes |
| DynamicRoutesObject.Handlers.Delete | internal/server/dynamic_routes_api.go:139-158 | the route goes, of whatever type, and the script file stays |
| DynamicRoutesObject.Handlers.ReadCode | internal/server/dynamic_routes_api.go:30-62 | answers what the machine's lookup answers, unless the store or the file system fails, and changes nothing but the cache |
| TaskIds.SameIdIff | internal/brokers/rabbitmq.go:90-92 | two tasks share an id exactly when kind and broker agree and their names and queues read the same once joined by a colon |
| TaskIds.IdDeterminesTask | internal/brokers/kafka.go:79-81 | with colon-free pool names the id determines broker, pool, queue and kind |
| TaskIds.ColonsCollide | internal/brokers/rabbitmq.go:90-92 | a colon in a pool name lets two pools share their ids |
| TaskIds.LookupAgrees | internal/database/mongo.go:200-210 | the id under which a task logs is the id under which its pool's messages are looked up |
| TaskIds.LookupFindsOwnMessages | internal/database/task_messages.go:38-61 | looking a pool's messages up finds exactly those its own tasks stored, in order of storing |
| CodeWrappers.SplitConcat | internal/util/code_wrappers.go:25 | splitting distributes over texts joined by a newline |
| CodeWrappers.JoinSplit | internal/util/code_wrappers.go:25-27 | joining what was split gives the text back |
| CodeWrappers.UnwrapWrap | internal/util/code_wrappers.go:20-38 | for every string, unwrapping a wrapped script gives it back with exactly one newline more, for both targets |
| CodeWrappers.CyclesAddNewlines | internal/util/code_wrappers.go:20-38 | n cycles of fetching and resubmitting add exactly n newlines |
| CodeWrappers.WrapIsInjective | internal/util/code_wrappers.go:20-32 | different scripts or targets give different files |
| CodeWrappers.UnwrapPanicsIff | internal/util/code_wrappers.go:24-28 | unwrapping a text panics exactly when it has fewer than four newlines |
| EsbArgs.WrapArgsForEsb | internal/util/code_wrappers.go:86-94 | the loop builds the object with the member `msgs`, each message in quotes |
| EsbArgs.CleanRoundTrip | internal/util/code_wrappers.go:86-94 | reading the text by RFC 8259 (sections 2, 4, 5 and 7) gives back every list of messages without quotes, backslashes and control characters |
| EsbArgs.RoundTripIff | internal/util/code_wrappers.go:86-94 | it gives the list back if and only if all messages are of that kind |
| EsbArgs.WrappedIsInjective | internal/util/code_wrappers.go:86-94 | on such lists the encoding is injective |
| EsbArgs.QuoteSplitsMessage | internal/util/code_wrappers.go:86-94 | one message with quotes reaches the mapper as two |

## Left out

- Brokers, Docker, MongoDB, HTTP, the file system and the clock: their answers are parameters, and any call may fail. A failed call of the store has no effect; the nil result that a failed `UpdateOne` would dereference is not modelled.
- gcache internals (expiry, load grouping, choice of victim): the cache may drop any entry at any time and never keeps a failed load.
- Timing: tickers, timeouts and sleeps become events that may happen at any time. The five-second limit of the server's shutdown, after which the process is aborted, is not modelled.
- Status codes, JSON binding, logging and proxy request rewriting of the HTTP handlers.
- `workerByPort` and the removal of containers in the watcher's `Stop`; restarting a container has no effect on its handle.
- `BorrowWorker` before a successful `Init`.
- Listing order: the sort key `timestamp` is in no stored document, so the code does not decide the order; messages are looked up in order of storing.
- The lists of ESB records and message pools, the typed listings' HTTP endpoints, and the in-memory registry of pools.
- Python execution: a mapper is an arbitrary function that may fail.
- `SyncMap`, configuration, project-root discovery, image building and the playground.
- EsbConservation.EsbConserves: one pair of pools.
- EsbOrder.EsbPreservesOrder: for one write worker, since several write workers may publish two batches in either order; and for a Kafka topic of one partition, since the order of messages across partitions is not defined.
- EsbArgs.RoundTripIff: the reader refuses an escape for a lone surrogate, which RFC 8259 leaves open; only texts without escapes occur in the round trip.
- Kafka.ReadTask.Read: the deadline is the end of the sequence of polls.
- SchedulerObject.Scheduler.Stop: ends where the source starts to wait for the workers; how that wait ends is `StalledShutdownHasJoined`.
- SchedulerObject.Scheduler.RunReader: without interference from other threads, and outside the time between the closing of the error channel and the return of a worker that still has a task; the machine covers both.
- SchedulerObject.Scheduler.RunWriter: the same, for a write worker.
- DynamicRoutes.RoutesServeLastCode: one write of a file is one step, so a read that overlaps a write of the same file, and two overlapping writes of one file, are not covered.
- DynamicRoutes.PutServesAckIff: for a PUT that is not interrupted; `PutsCanSwap` shows that overlapping ones need not serve the code acknowledged last.
- DynamicRoutesObject.Handlers.Post: the handlers of the object run one after another on a coherent collection; interleaved ones are in the machine, and what proxy updates do to the collection is `RoutesUpToUrl`.
- CollectionObject.Collection.Get: the object runs its methods one after another; readers that overlap are in the machine.

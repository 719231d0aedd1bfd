# ITCFramework core in Dafny

This project models the core of ITCFramework, a C++ library for messaging between threads. It covers:

- **Queues.** `tsqueue`, `tsbqueue` (and its twin `al_tsbqueue`), `ThreadSafeLocalQueue` and the ring buffer `cfifo`.
- **Message listeners.** The listener that drains a queue (`IMessageListener`) and its persistent-queue variant (`PQMessageListener`).
- **Threads.** The thread pool (`ThreadPool`, `PoolThread`), the manager that grows and shrinks pools (`ThreadPoolManager`) and the timed scheduler `RScheduler`.
- **Readiness controllers.** The epoll wrapper `sys::ePoll`, with `ePollInController` and `PollController` on top of it.
- **Services.** The service registry `ServiceManager`, with its dependency-ordered start and stop, and `ServiceFacade`.
- **Workflow.** `WorkflowEntity`, `WorkflowStorableState` and the message-driven `WorkflowControl`.
- **Persistent queue.** `PersistentQueue`, its payload `PQueueDataType`, the `QueueTxn` transaction, the LMDB write-behind `LMDBWriter`, and the key types `DBKey`, `DBKeyType` and `MessageKeyType`.
- **Counters and sockets.** The `Sequence` counter and `ClientSocketsFactory`.
- **Configuration.** The properties-file reader (`Properties`) and the configuration language: its lexeme classes, the stack-driven parser `Config::parser`/`Config::parse`, the reflection tree and the `save` serialiser.

Each source file is one Dafny module. Source state that is updated in place becomes a `class` with `modifies` clauses, and pure computations become functions with lemmas. Each loop of the source is a method that is proved against a reference function.

The following choices hold throughout:

- Mutexes, atomics and condition variables are erased, and each operation runs as one step.
- A `sys::Semaphore` becomes a count of pending events and a destroyed flag (`Semaphores`), and a blocking `wait` becomes a precondition that the semaphore is ready.
- Outcomes the code receives from outside become parameters: the clock, the events epoll reports, the results of LMDB calls, the tokenizer's output, and the runnable a woken thread finds.
- A null `shared_ptr` becomes `Option`, and a thrown exception becomes an explicit outcome.
- `std::map`s whose iteration order is observable are sorted association lists over a strict total order (`SortedMaps`, `Strings`).
- 64-bit counters wrap explicitly modulo 2^64.

## Where the code differs from its documentation or does not compile

- **Followed the code, not the docs.** The configuration language documented in `include/Config.h:45-58` (`name ':' value`) is not what the parser does. The parser in `src/Config/parser.cpp` also takes `name value` separated by blanks, and a bare value is stored by its lexeme class. The model follows the code.
- **Stale copy.** `include/Config.h:60-296` holds an older in-class copy of the parser. The model follows the out-of-line `src/Config/parser.cpp`. `src/Config/parse.cpp:7-206` is a line-for-line copy of its `parser` step.
- **Compile errors modelled with the evident meaning.** Several spots would not compile as written, and the model gives each the evident meaning:
  - `mEnqueueMutex` is never declared (`include/ThreadPool.h:110` and later).
  - The `PoolThread` state enum spells `CANCELED` (`include/PoolThread.h:57`), but line 206 uses `CANCELLED`.
  - `isOk` is not declared (`include/PoolThread.h:171`).
  - `INPUT_END` is missing from the `Expect` enum (`include/Config.h:40-43`) but is pushed at `src/Config/parser.cpp:215`.
  - The synchronous `enqueue` calls itself without its pointer (`include/ThreadPool.h:295`, `373`).
  - The constructor at `include/ThreadPool.h:84-88` passes a type where a value is expected.
  - The `const getNext()` of `Sequence` calls `getNext(Reverse)` with a bool (`include/Sequence.h:129-132`).
  - `save.cpp` uses `getType()` and the codes `ARRAY`, `NUMBER`, `STRING` and `BOOL`, none of which `ConfigReflection.h` declares. The model dispatches on the variable's class.
- **Surprising but modelled as written.** The `WorkflowEntity` getters `getPrevStateId` and `getErrorStateId` return the next state's id (`include/WorkflowEntity.h:83-97`). The model keeps this and proves it (`GettersReportNext`).
- **Names pile up.** A value stored at ',' or at a blank does not pop its name (`src/Config/parser.cpp:138-143`, `186-192`), so the name stack grows. The current name stays on top, and the model keeps this behaviour.
- **Dead branch.** The error-state lookup in `WorkflowControl::onMessage` repeats the next-state lookup that has just failed, so that branch never succeeds (`UnknownStateGoesToDeadLetter`).

## Model

| member | source | states |
|---|---|---|
| Fifo.RunIsFifo | include/tsqueue.h:38-63 | any run of pushes and pops takes items in arrival order: what was taken followed by what remains equals the old contents followed by everything pushed |
| Fifo.RunDepth | include/ThreadSafeLocalQueue.h:70-91 | the depth after a run is the old depth plus the sends minus the successful receives |
| TsQueue.Queue.constructor | include/tsqueue.h:30 | a new queue is empty |
| TsQueue.Queue.Empty | include/tsqueue.h:32-36 | `empty()` holds exactly when no element is queued |
| TsQueue.Queue.Push | include/tsqueue.h:38-43 | `push` appends the element at the back and returns the same queue |
| TsQueue.Queue.PushMoved | include/tsqueue.h:45-50 | the rvalue `push` has the same effect as the copying one |
| TsQueue.Queue.Front | include/tsqueue.h:52-56 | `front()` yields the oldest element of a non-empty queue |
| TsQueue.Queue.Pop | include/tsqueue.h:58-63 | `pop()` removes exactly the oldest element and returns the same queue |
| TsQueue.Queue.Size | include/tsqueue.h:65-69 | `size()` is the number of queued elements |
| ThreadSafeLocalQueue.LocalQueue.constructor | include/ThreadSafeLocalQueue.h:64-68 | a new queue is empty with a fresh trigger |
| ThreadSafeLocalQueue.LocalQueue.Send | include/ThreadSafeLocalQueue.h:70-75 | `send` appends at the back (a FIFO push), posts the trigger once, always reports success, and keeps the trigger counting the queue |
| ThreadSafeLocalQueue.LocalQueue.Recv | include/ThreadSafeLocalQueue.h:77-86 | after the wait, `recv` takes the front message when there is one and fails on an empty queue, which it leaves unchanged (a FIFO pop); the wait's result is ignored |
| ThreadSafeLocalQueue.LocalQueue.Depth | include/ThreadSafeLocalQueue.h:88-91 | `depth` is the number of queued messages |
| ThreadSafeLocalQueue.LocalQueue.Destroy | include/ThreadSafeLocalQueue.h:93-99 | `destroy` only destroys the trigger; queued messages stay |
| BlockingQueues.BlockingQueue.Std | include/tsbqueue.h:36 | tsbqueue starts empty with a fresh semaphore |
| BlockingQueues.BlockingQueue.Atomic | include/al_tsbqueue.h:33 | al_tsbqueue starts empty with a fresh semaphore |
| BlockingQueues.BlockingQueue.Destroy | include/tsbqueue.h:40-51 | `destroy` destroys the semaphore and empties the queue |
| BlockingQueues.BlockingQueue.PushAll | include/tsbqueue.h:60-67 | the batch loop appends every element with one post each; on a destroyed semaphore the first element is queued and the loop stops with an error |
| BlockingQueues.BlockingQueue.SendBatch | include/tsbqueue.h:57-68 | batch `send` appends the batch in index order with one post per element, or raises std::system_error after queuing the first element when the semaphore is gone |
| BlockingQueues.BlockingQueue.TrySend | include/al_tsbqueue.h:67-83 | `try_send` changes nothing and returns false when the lock is taken; otherwise it behaves as batch `send` and returns true |
| BlockingQueues.BlockingQueue.Send | include/tsbqueue.h:93-101 | single `send` appends the element, then posts; a failed post raises std::system_error with the element already queued |
| BlockingQueues.BlockingQueue.TryRecv | include/tsbqueue.h:103-113 | `tryRecv` takes the front element exactly when the timed wait succeeds and otherwise leaves the queue untouched |
| BlockingQueues.BlockingQueue.Recv | include/tsbqueue.h:124-155 | `recv` raises std::system_error when the wait fails, "already consumed" on an empty queue, and otherwise removes and returns the front element; with the semaphore counting the queue the last case is the only one while alive |
| BlockingQueues.BlockingQueue.Size | include/tsbqueue.h:157-162 | `size` reads the semaphore (raising on a destroyed one), which equals the queue length while the invariant holds |
| CFifo.SetItem | include/cfifo.h:41-53 | `sitem::set` stores the item, marks the slot busy, posts once and reports true exactly when the slot was free; a busy slot is left alone |
| CFifo.FetchAndClear | include/cfifo.h:55-70 | once the slot's wait returns, `fetch_and_clear` consumes one post, frees the slot and yields its item exactly when it was busy |
| CFifo.SetThenFetch | include/cfifo.h:41-70 | storing into a free slot and fetching it back returns the item and leaves the slot free, with one pending post exactly while busy |
| CFifo.AdvanceIsModular | include/cfifo.h:99-104 | the cursor step `(pos+1) < limit ? pos+1 : 0` from `k mod limit` lands on `(k+1) mod limit`, so a cursor never leaves the ring |
| CFifo.FirstFree | include/cfifo.h:95-114 | the slot `send` ends in: a free slot such that every slot between the push cursor and it, in ring order, is busy |
| CFifo.Fifo.constructor | include/cfifo.h:87-90 | `qsz` free slots, both cursors at 0, valid |
| CFifo.Fifo.TrySend | include/cfifo.h:95-109 | `try_send` throws EOWNERDEAD once invalid; otherwise it claims the slot at the push cursor, advances the cursor, stores the item there if the slot is free and reports whether it did |
| CFifo.Fifo.Send | include/cfifo.h:111-114 | `send` throws EOWNERDEAD once invalid; otherwise it retries `try_send` until a slot takes the item: the item goes into the first free slot from the push cursor, no other slot changes, one claim is counted per slot passed plus one, and the cursor ends just past that slot |
| CFifo.Fifo.TryRecv | include/cfifo.h:116-130 | `try_recv` throws EOWNERDEAD once invalid; otherwise it claims the slot at the read cursor, advances the cursor and fetches that slot's item |
| CFifo.Fifo.Recv | include/cfifo.h:132-137 | `recv` throws EOWNERDEAD once invalid; otherwise, once the slot at the read cursor is filled, it yields that slot's item, frees the slot with its post consumed, changes no other slot and advances the read cursor |
| CFifo.Fifo.Invalidate | include/cfifo.h:139-142 | the destructor clears `valid`, so later calls throw |
| CFifo.SendThenRecvInOrder | include/cfifo.h:111-137 | scenario: on a fresh ring of two slots, two sends followed by two receives return the items in the order they were sent |
| MessageListener.EachMessageDeliveredOnce | include/abstract/IMessageListener.h:86-113 | every successful receive the loop consumes is followed by exactly one `onMessage` with that value, in receive order |
| MessageListener.QueueDestroyAtMostOnceAndLast | include/abstract/IMessageListener.h:98-110 | `onQueueDestroy` is called at most once and is always the last callback |
| MessageListener.StopsOnlyOnFailureOrShutdown | include/abstract/IMessageListener.h:89-111 | the loop stops only at a failed receive, an expired queue or a shutdown; every step before that was a successful receive |
| MessageListener.Listener.Started | include/abstract/IMessageListener.h:71 | a constructed listener has its run flag set |
| MessageListener.Listener.Create | include/abstract/IMessageListener.h:66-73 | the constructor throws NullPointerException exactly when the queue pointer is empty; otherwise the listener is ready to run |
| MessageListener.Listener.Shutdown | include/abstract/IMessageListener.h:75-79 | `shutdown` clears the run flag |
| MessageListener.Listener.Execute | include/abstract/IMessageListener.h:86-113 | the `while (doWork)` loop makes exactly the callbacks of the reference run and consumes exactly its steps; a listener already shut down does nothing |
| PQMessageListener.EachTxnHandedOver | include/PQMessageListener.h:89-110 | each transaction `recv()` returned goes to exactly one `onMessage` call, in order, and the loop consumes steps until the first that was not handled normally |
| PQMessageListener.ExpiryEndsSilently | include/PQMessageListener.h:103-107 | an expired queue ends the loop with no further callback (in particular no `onQueueDestroy`, whatever the log message says) |
| PQMessageListener.Listener.Started | include/PQMessageListener.h:74 | a constructed listener may run |
| PQMessageListener.Listener.Create | include/PQMessageListener.h:69-76 | the constructor throws NullPointerException exactly when the queue pointer is empty |
| PQMessageListener.Listener.Shutdown | include/PQMessageListener.h:78-82 | `shutdown` clears `mayRun` |
| PQMessageListener.Listener.Execute | include/PQMessageListener.h:89-110 | the `while (mayRun)` loop hands over exactly the transactions of the reference run and consumes exactly its steps; any exception from `recv` or `onMessage` stops it without rethrowing |
| ThreadPool.Dispatch | include/ThreadPool.h:111-150 | every `enqueue` overload takes the oldest passive thread if there is one, else creates a thread while under the maximum, else does what the block policy says: queue (ASYNC), wait (SYNC) or discard (DISCARD); exactly one route applies |
| ThreadPool.Failure | include/ThreadPool.h:122-127 | a caught failure is reported as `false` under ERROR and as ITCException Can_not_assign_runnable under EXCEPTION |
| ThreadPool.PrestartAsWritten | include/ThreadPool.h:73-79 | as written the counter rises by two per thread started and ends at or above `min` |
| ThreadPool.Prestart | include/ThreadPool.h:73-79 | the intended loop counts each thread started once, and the counter ends at or above `min` |
| ThreadPool.PrestartAsWrittenCounts | include/ThreadPool.h:73-79 | as written, the constructor loop adds two to the counter per thread: for even `min` it starts `min/2` threads |
| ThreadPool.PrestartAsWrittenOdd | include/ThreadPool.h:73-79 | as written, for odd `min` the constructor starts `(min+1)/2` threads and leaves the counter at `min+1` |
| ThreadPool.ConstructorOvershoot | include/ThreadPool.h:73-79 | with min = max = 3 the constructor as written starts 2 threads and counts 4, above the maximum |
| ThreadPool.PrestartCounts | include/ThreadPool.h:73-79 | the intended loop starts exactly `min` threads and counts each once |
| ThreadPool.Pool.AsWritten | include/ThreadPool.h:66-80 | the constructor as written: the passive threads and counter of the double-increment loop, one post of `mHavePassiveThreads` per thread |
| ThreadPool.Pool.constructor | include/ThreadPool.h:66-80 | the corrected constructor: `min` passive threads, each posted once, the counter at `min`, so within the maximum whenever min <= max |
| ThreadPool.Pool.Enqueue | include/ThreadPool.h:102-518 | `enqueue` under both policies: a passive thread moves to the active list and index map, and a new thread is registered and counted; if the `push_back` throws the thread is dropped, and if the index insert after it throws the thread stays in the active list without an index, in both cases with the counter decremented (except for a new thread under ASYNC/ERROR); the chosen thread gets the runnable; a saturated pool queues, blocks, returns false or throws EBUSY; the counter changes by at most one step |
| PoolThreads.RunAnnouncesEachExecution | include/PoolThread.h:186-201 | every pass of `run` starts by announcing WAIT, every RUN is followed by DONE, and the number of announcements is the number of passes plus two per execution |
| PoolThreads.PoolThread.constructor | include/PoolThread.h:141-151 | a new thread has no runnable, is OK and has announced INIT; with no runnable `init` posts nothing |
| PoolThreads.PoolThread.Notify | include/PoolThread.h:131-137 | `notify` forwards the report to the poller's `update` only when a poller is attached |
| PoolThreads.PoolThread.SetState | include/PoolThread.h:86-91 | `setState` stores the state, then notifies `(thread id, state)` |
| PoolThreads.PoolThread.SetNextRunnable | include/PoolThread.h:161-181 | `setNextRunnable` is accepted exactly while OK and in WAIT, storing the runnable and posting the iteration semaphore; otherwise it throws EBUSY and changes nothing |
| PoolThreads.PoolThread.RunLoop | include/PoolThread.h:186-201 | the `run` loop, over the runnables found after each wake, makes exactly the reference run's `update` calls and executions, stays OK, consumes one event of the iteration semaphore per pass (pending ones, or none once it is destroyed) and leaves the last runnable found in place |
| PoolThreads.PoolThread.RunOnePass | include/PoolThread.h:111-117 | one pass announces WAIT, waits on the iteration semaphore (an event must be pending), holds the runnable found there, and announces RUN, executes it and announces DONE when there is one |
| PoolThreads.PoolThread.Cleanup | include/PoolThread.h:203-214 | `cleanup` clears OK, announces the cancelled state, calls `onCancel` on the current runnable, and its final `setNextRunnable(NULL)` always throws EBUSY |
| PoolThreads.PoolThread.Finalize | include/PoolThread.h:216-228 | the destructor clears OK and calls `shutdown` on the current runnable if there is one |
| PoolThreads.PoolThread.PassReports | include/PoolThread.h:186-201 | the reports and executions of the first k + 1 passes of the run loop are those of the first k followed by those of pass k |
| ThreadPoolManager.FloorLog2 | include/ThreadPoolManager.h:133 | `size_t(log2(n))` computed exactly: the k with 2^k <= n < 2^(k+1), which the double computation also yields below 2^49 - 1 |
| ThreadPoolManager.ExpandRule | include/ThreadPoolManager.h:129-135 | the pool is expanded exactly when fewer passive threads than the ready minimum, fewer threads than the maximum plus overcommit, and a queue more than 1.25 times the thread count; by floor(log2(pool maximum)), undefined for a zero maximum |
| ThreadPoolManager.ReduceRule | include/ThreadPoolManager.h:136-139 | the pool is reduced only when it has a passive thread and a positive maximum |
| ThreadPoolManager.ExpandAndReduceExclusive | include/ThreadPoolManager.h:129-140 | no snapshot both expands and reduces, and a passive count equal to the ready minimum does neither |
| ThreadPoolManager.AtMostOneActionPerPass | include/ThreadPoolManager.h:114-146 | one pass makes at most one `expand` or `reduce` call |
| ThreadPoolManager.Manager.constructor | include/ThreadPoolManager.h:91-103 | the manager starts running with its limits stored and no pool calls made |
| ThreadPoolManager.Manager.Shutdown | include/ThreadPoolManager.h:154-161 | `shutdown` and `onCancel` only clear `doRun` |
| ThreadPoolManager.Manager.PassStep | include/ThreadPoolManager.h:116-145 | one pass stores its snapshot and makes the calls the expand and reduce rules give for it |
| ThreadPoolManager.Manager.Execute | include/ThreadPoolManager.h:111-147 | `execute` runs passes while `doRun` holds; the calls made are those of the passes consumed, every consumed pass but the last had a snapshot, and nothing happens once stopped |
| ClientSocketsFactory.PoolOutgrowsMaximum | include/ClientSocketsFactory.h:64-74 | as written, with maxPrebuild 2 and minQL 5, two calls after construction leave 4 sockets in the pool, more than maxPrebuild |
| ClientSocketsFactory.AsWrittenGrowth | include/ClientSocketsFactory.h:64-74 | as written, every call that finds the pool at or below minQL grows it by maxPrebuild - 1 |
| ClientSocketsFactory.PoolStaysWithinMaximum | include/ClientSocketsFactory.h:63-80 | the intended refill keeps the pool below maxPrebuild after each call, and a refill leaves exactly maxPrebuild - 1 |
| ClientSocketsFactory.Factory.constructor | include/ClientSocketsFactory.h:49-61 | the constructor prebuilds exactly maxPrebuild sockets, in order |
| ClientSocketsFactory.Factory.Build | include/ClientSocketsFactory.h:69-74 | the refill loop pushes `count` newly built sockets at the back |
| ClientSocketsFactory.Factory.GetBlindSocketAsWritten | include/ClientSocketsFactory.h:63-80 | as written: above minQL the oldest socket is handed out; otherwise maxPrebuild sockets are built first whatever the pool holds |
| ClientSocketsFactory.Factory.GetBlindSocket | include/ClientSocketsFactory.h:63-80 | as intended: the pool is topped up to maxPrebuild before the oldest socket is handed out, and the pool stays within maxPrebuild |
| RScheduler.Deadline | include/RScheduler.h:119-128 | the intended deadline denotes `now` plus the offset in milliseconds, with microseconds below one second, and is later than `now` for a positive offset |
| RScheduler.DeadlineAsWritten | include/RScheduler.h:122-126 | as written the seconds only grow and the microseconds only shrink, and one changes exactly when the other does |
| RScheduler.AsWrittenDeadlineDenotesNow | include/RScheduler.h:122-126 | as written, the computed deadline denotes `now` itself whatever the offset: the carry is subtracted from the original microseconds |
| RScheduler.AsWrittenDeadlineExamples | include/RScheduler.h:122-126 | as written, a 500 ms offset at 10 s yields 10 s, and 600 ms at 10.5 s yields 11 s with -500000 microseconds instead of 11.1 s |
| RScheduler.Firsts | include/RScheduler.h:183-204 | the drain hands over one task per deadline: the first of each list, in deadline order |
| RScheduler.DrainDropsLaterTasks | include/RScheduler.h:183-204 | the drain hands out every scheduled task exactly when every list holds one task; otherwise later tasks of a list are dropped |
| RScheduler.Scheduler.constructor | include/RScheduler.h:93-101 | a new scheduler runs, accepts tasks and has an empty schedule |
| RScheduler.Scheduler.Add | include/RScheduler.h:107-150 | while running and accepting, the task is appended to the list at its deadline (or starts one), other deadlines are untouched, the schedule stays ordered, and the wake time is the earliest deadline; otherwise nothing changes |
| RScheduler.Scheduler.Tick | include/RScheduler.h:166-217 | one pass pulls the wake time forward to the earliest deadline; once `now` reaches it the whole schedule is drained (as `Drain` does, see Left out) and the wake time becomes the "never" sentinel |
| RScheduler.Scheduler.Drain | include/RScheduler.h:183-204 | the drain loop empties the schedule, enqueueing the first task of each entry in deadline order (the source reaches this end only through an undefined iterator comparison; see Left out) |
| RScheduler.Scheduler.IsScheduleEmpty | include/RScheduler.h:227-231 | reports whether the schedule is empty |
| RScheduler.Scheduler.Shutdown | include/RScheduler.h:239-249 | `shutdown` stops accepting tasks and leaves the schedule empty, the run flag untouched |
| RScheduler.Scheduler.OnCancel | include/RScheduler.h:233-237 | `onCancel` stops the run loop, stops accepting tasks and empties the schedule |
| EPoll.ReturnCode | include/sys/ePoll.h:105-128 | `poll` returns 1 exactly after dispatching, 0 exactly when there was nothing to poll, and -1 on a failed wait or once destroyed |
| EPoll.RegisterStep | include/sys/ePoll.h:68-76 | one request issues one EPOLL_CTL_ADD; a refused one throws, leaving the queue and the table as they were; an accepted one is popped and its view stored for its fd |
| EPoll.DispatchStep | include/sys/ePoll.h:80-108 | one event leaves the request queue alone, notifies at most one view, notifies nothing for an unknown fd, and leaves the table with only its old entries or null ones |
| EPoll.Interest | include/sys/ePoll.h:150-178 | each registration asks for hangup, error and priority events, plus input for an input reactor and output for an output reactor |
| EPoll.LaterRequestWins | include/sys/ePoll.h:68-76 | with no refused registration, the request drain empties the queue, issues one EPOLL_CTL_ADD per request, a later request for an fd replaces an earlier one, and other fds keep their entry |
| EPoll.DispatchNotifiesAtMostOncePerEvent | include/sys/ePoll.h:80-108 | each event notifies at most one view, the request queue is untouched, and the table only loses entries or gains null ones, never a new view |
| EPoll.HangupNotifiesAndForgets | include/sys/ePoll.h:82-96 | a hangup or error event for an fd with a view notifies it once with the mask, erases it and issues EPOLL_CTL_DEL |
| EPoll.EPoll.constructor | include/sys/ePoll.h:41-53 | a new reactor has no requests, no observers and has issued nothing |
| EPoll.EPoll.Add | include/sys/ePoll.h:55-60 | `add` only queues the request |
| EPoll.EPoll.Poll | include/sys/ePoll.h:63-129 | `poll` returns -1 once destroyed; otherwise it drains the requests, and then per `epoll_wait`'s outcome returns -1 on failure, 0 on a timeout, or dispatches the events and returns 1, throwing where an `epoll_ctl` fails |
| EPoll.EPoll.DrainRequests | include/sys/ePoll.h:68-76 | the request drain loop computes the reference drain |
| EPoll.EPoll.DispatchEvents | include/sys/ePoll.h:80-108 | the dispatch loop computes the reference dispatch |
| EPoll.EPoll.Destroy | include/sys/ePoll.h:131-138 | the destructor marks the reactor destroyed and empties the requests and the table |
| EPollInController.OneShotNotifiesOnce | include/ePollInController.h:74-87 | after dispatching a poll result, exactly the subscriptions whose fd had an event are gone, each notification went to its fd's subscriber with an event of the result, and no fd is notified twice |
| EPollInController.RunOnlyRemovesSubscriptions | include/ePollInController.h:62-102 | while `execute` runs, subscriptions only disappear, notifications only accumulate, and a cancellation ends the loop with none left |
| EPollInController.Controller.constructor | include/ePollInController.h:49-52 | a new controller runs with no subscribers |
| EPollInController.Controller.Subscribe | include/ePollInController.h:54-60 | `subscribe` is a map insert, so an fd already subscribed keeps its subscriber, and the fd is handed to the poller either way |
| EPollInController.Controller.Execute | include/ePollInController.h:62-90 | the `execute` loop computes the reference run over the poll results |
| EPollInController.Controller.Dispatch | include/ePollInController.h:74-87 | the `for_each` over a poll result computes the reference one-shot dispatch |
| EPollInController.Controller.Shutdown | include/ePollInController.h:91-102 | `onCancel` and `shutdown` stop the loop and drop every subscription |
| PollController.NotifiedExactly | include/PollController.h:85-95 | exactly the polled entries with non-zero revents and a non-null subscriber are notified, each to its own subscriber, at most one notification per entry |
| PollController.RunNotifiesOnlySubscribers | include/PollController.h:75-110 | over any run of `execute`, notifications only accumulate, each goes to the subscriber of an fd with events, and a cancellation ends the loop |
| PollController.Controller.constructor | include/PollController.h:48 | a new controller runs with no subscribers and no poll-set calls |
| PollController.Controller.Subscribe | include/PollController.h:50-55 | `subscribe` is a map insert that keeps an existing subscriber; the fd joins the poll set only while running |
| PollController.Controller.Watch | include/PollController.h:57-61 | `watch` enables the fd in the poll set only while running, and touches nothing else |
| PollController.Controller.Unwatch | include/PollController.h:63-67 | `unwatch` disables the fd only while running, and touches nothing else |
| PollController.Controller.Remove | include/PollController.h:69-73 | `remove` deletes the fd from the poll set only while running, and keeps the subscriber |
| PollController.Controller.Execute | include/PollController.h:75-98 | the `execute` loop computes the reference run; subscriptions persist across notifications |
| PollController.Controller.Dispatch | include/PollController.h:85-95 | the loop over the watch list makes exactly the reference notifications |
| PollController.Controller.Shutdown | include/PollController.h:99-110 | `onCancel` and `shutdown` clear the flag and the poll set, keeping the subscriber map |
| WorkflowEntities.Entity.constructor | include/WorkflowEntity.h:51-59 | the entity holds the four ids it was given |
| WorkflowEntities.Entity.Copy | include/WorkflowEntity.h:61-66 | the copy constructor copies all four ids |
| WorkflowEntities.Entity.SetPrevStateId | include/WorkflowEntity.h:71-73 | `setPrevStateId` changes only the previous-state id |
| WorkflowEntities.Entity.SetNextStateId | include/WorkflowEntity.h:75-77 | `setNextStateId` changes only the next-state id |
| WorkflowEntities.Entity.SetErrorStateId | include/WorkflowEntity.h:79-81 | `setErrorStateId` changes only the error-state id |
| WorkflowEntities.GettersReportNext | include/WorkflowEntity.h:83-97 | as written, `getPrevStateId` and `getErrorStateId` both report the next-state id; `getId` reports the id |
| WorkflowEntities.SetPrevIsInvisible | include/WorkflowEntity.h:71-89 | after `setPrevStateId(x)` the field holds x but `getPrevStateId` reports what it reported before |
| WorkflowStorableStates.Copy | include/WorkflowStorableState.h:89-91 | the copy constructor shares the pointer |
| WorkflowStorableStates.Trichotomy | include/WorkflowStorableState.h:93-112 | between non-null states exactly one of `<`, `==`, `>` holds; with a null side none does |
| WorkflowStorableStates.OrderByIdOnly | include/WorkflowStorableState.h:93-112 | `<` is a strict order and `==` a symmetric, transitive relation decided by the state id alone, reflexive only for non-null states; `<` and `>` are converses |
| WorkflowStorableStates.RawIdComparisons | include/WorkflowStorableState.h:118-146 | against a raw id, every comparison is false for a null pointer (so `!=` is not the negation of `==` there), and the conversion to an id yields `err` for a null pointer |
| WorkflowControl.DeadOrFinishedChangesNothing | include/WorkflowControl.h:88-91 | with either queue flag cleared, or an entity at `end`, nothing changes and nothing is sent |
| WorkflowControl.UnknownStateGoesToDeadLetter | include/WorkflowControl.h:93-127 | an unknown next state runs no task; the entity goes to the dead-letter queue unchanged, a failed send clears the workflow flag, and a missing dead-letter queue clears the dead-letter flag |
| WorkflowControl.KnownStateRunsTaskAndForwards | include/WorkflowControl.h:128-177 | a known state's task runs once; the transition is looked up from the next-state id the task left behind, and the entity the task left is forwarded only when that transition leads to a state other than `end`, then carrying that id as previous and the target as next; otherwise it stays as the task left it |
| WorkflowControl.TaskRedirectsForwarding | include/WorkflowControl.h:128-177 | a task that leaves the entity alone has it forwarded from the state it arrived in; a task that sets its next-state id to y has it forwarded from y |
| WorkflowControl.AtMostOneDelivery | include/WorkflowControl.h:84-197 | the entity's id never changes, its error id changes only through a task that ran (to what the task set), the dead-letter queue never gets an entity whose task ran, and the dead-letter flag only clears when the queue is missing |
| WorkflowControl.Control.constructor | include/WorkflowControl.h:72-82 | both queue flags start valid and nothing has run |
| WorkflowControl.Control.OnMessage | include/WorkflowControl.h:84-197 | `onMessage` updates the entity, the flags and the queues exactly as the reference transition says, given the entity the task leaves behind |
| WorkflowControl.Control.RunTask | include/WorkflowControl.h:132 | `StateTask(&msg)` leaves the entity holding the given fields, set through its public setters |
| WorkflowControl.Control.OnQueueDestroy | include/WorkflowControl.h:205-226 | `onQueueDestroy`, `onCancel` and the destructor clear both flags and nothing else |
| WorkflowControl.Control.GetWFStatesCopy | include/WorkflowControl.h:199-203 | the copy has the same keys and shares every state pointer |
| Properties.ClassifyTypes | include/Properties.h:90-122 | a value starting with a letter is `true` or `false` when it begins with that word ignoring case and a string otherwise; a value of digits only (the empty value included) is an integer; any other value is a string holding the value verbatim |
| Properties.SignedOrFractionalIsString | include/Properties.h:106-117 | a value with a sign or a decimal point is a string, not a number |
| Properties.ReadStopsAtFailure | include/Properties.h:62-73 | reading stops at the first line that does not parse: the lines after it have no effect |
| Properties.LaterLineWins | include/Properties.h:62-73 | when every line parses, each key holds the value of the last line defining it, and undefined keys keep their earlier value |
| Properties.ReadOnlyAddsDefinedKeys | include/Properties.h:62-73 | every key read comes from some line of the file |
| Properties.ReadAllStep | include/Properties.h:62-73 | one line of the reading loop: skipped, stored, or the end of reading |
| Properties.ParseLine | include/Properties.h:76-130 | `parseLine` with its digit-counting loop yields exactly the reference parse: nothing unless the tokenizer gives two tokens, otherwise the key and its classified value |
| Properties.PropertiesFile.constructor | include/Properties.h:133-139 | constructing from a file reads its lines into the map |
| Properties.PropertiesFile.ReadProperties | include/Properties.h:57-74 | the reading loop computes the reference fold over the lines |
| Properties.PropertiesFile.GetInt | include/Properties.h:141-147 | succeeds exactly when the output pointer is non-null and the key holds an integer, yielding that integer |
| Properties.PropertiesFile.GetBool | include/Properties.h:149-156 | succeeds exactly when the output pointer is non-null and the key holds a boolean, yielding it |
| Properties.PropertiesFile.GetString | include/Properties.h:158-165 | succeeds exactly when the output pointer is non-null and the key holds a string, yielding it |
| Properties.ReadThenGetInt | include/Properties.h:57-147 | after reading a file whose lines all parse, asking for an integer yields the last definition of the key when it is an integer, and fails otherwise |
| ServiceManager.Prerequisites | include/ServiceManager.h:180-198 | `finddeps` lists no more names than the map has entries, and only keys of the map |
| ServiceManager.Dependents | include/ServiceManager.h:237-239 | a service without an entry in the dependency map has no dependents |
| ServiceManager.PrerequisitesListed | include/ServiceManager.h:180-198 | `finddeps(n)` lists only keys of the dependency map, and every key whose dependents include n |
| ServiceManager.PrerequisitesExactly | include/ServiceManager.h:180-198 | in an ordered map, `finddeps(n)` holds exactly the keys whose dependents include n |
| ServiceManager.CrossDepSymmetric | include/ServiceManager.h:145-166 | the cross-dependency test does not depend on the order of its arguments |
| ServiceManager.Start | include/ServiceManager.h:200-215 | `startService` as corrected (the branch with an entry, at lines 203-215, for every service) only starts services and appends starts to the log; a state it changes has a longer log |
| ServiceManager.StartEach | include/ServiceManager.h:207-213 | the `for_each` over the services to start only starts services and appends to the log |
| ServiceManager.StartBoundIgnoresState | include/ServiceManager.h:200-232 | whether the recursion terminates within a bound depends only on the dependency map |
| ServiceManager.StartEachBoundIgnoresState | include/ServiceManager.h:207-213 | the same for the `for_each` over the services to start |
| ServiceManager.StartNoOpLifts | include/ServiceManager.h:200-232 | a start that changes nothing changes nothing either in a state with more services up (used by the start loop at lines 341-354) |
| ServiceManager.StartEachNoOpLifts | include/ServiceManager.h:207-213 | the same for the `for_each` over the services to start |
| ServiceManager.StartIdempotent | include/ServiceManager.h:200-232 | starting a service twice is the same as starting it once: a service is started no more than once |
| ServiceManager.StartEachIdempotent | include/ServiceManager.h:207-213 | the `for_each` over the services to start is idempotent too |
| ServiceManager.StartBringsUp | include/ServiceManager.h:200-215 | a registered service is up after a start that terminated |
| ServiceManager.StartEachBringsUp | include/ServiceManager.h:207-213 | every registered service of the list is up after the `for_each` that starts them, when it terminated |
| ServiceManager.StartAfterPrerequisites | include/ServiceManager.h:203-215 | start order: a start that terminated has every registered service the name was added after up before it starts the name, and that start, when it happens, is the last entry of the log |
| ServiceManager.StartAsWritten | include/ServiceManager.h:200-232 | `startService` as written, with both branches, only starts services and appends starts to the log |
| ServiceManager.StartEachAsWritten | include/ServiceManager.h:207-213 | the `for_each` loops as written (the one at lines 218-230 starting the service after each entry's service) only start services and append starts to the log |
| ServiceManager.StartAsWrittenBringsUp | include/ServiceManager.h:200-232 | as written, in a well-formed (key-ordered) map, a start that terminated leaves a registered service up exactly when it has an entry, is some entry's dependent, or was already up |
| ServiceManager.StartAsWrittenInterleaves | include/ServiceManager.h:218-230 | example: with X added after both a and b, the start as written logs a, X, b, and the corrected start logs a, b, X |
| ServiceManager.StartPrivate | include/ServiceManager.h:341-354 | `startServicePrivate` leaves a registered service up, changes no other flag, and logs a start exactly when it starts a registered service that was down |
| ServiceManager.StopPrivate | include/ServiceManager.h:327-340 | `stopServicePrivate` leaves the service down unless it is unregistered and up, changes no other flag, and logs a stop exactly when it stops a registered service that was up |
| ServiceManager.Stop | include/ServiceManager.h:234-251 | `stopService` brings a registered service down, starts nothing, and changes no flag but those of the service and its direct dependents |
| ServiceManager.StopEach | include/ServiceManager.h:240-246 | stopping a list of services brings down exactly the registered ones listed, logs only their stops, and changes nothing when they were all down (each stop as `stopServicePrivate` at lines 327-340 does it) |
| ServiceManager.StopDependentsFirst | include/ServiceManager.h:234-251 | `stopService` stops the direct dependents and then the service itself, which is logged last; no other service changes; stopping again changes nothing |
| ServiceManager.Destroy | include/ServiceManager.h:355-374 | `destroyService` keeps the registry ordered, never adds a name, never changes the dependency map, starts nothing, leaves every name it erases down, and when it terminates removes the service and leaves it down |
| ServiceManager.DestroyEach | include/ServiceManager.h:363-370 | the `for_each` over the dependents keeps the registry ordered, never adds a name, never changes the dependency map, starts nothing, leaves every erased name down, and when it terminates has removed every listed service |
| ServiceManager.DestroyDependentsFirst | include/ServiceManager.h:355-374 | dependents first: a destroy that terminated has removed and brought down every direct dependent before it stops the service, that stop logs at most the service's own stop, and the service ends removed and down |
| ServiceManager.StartAllOf | include/ServiceManager.h:168-178 | `startAll` with the corrected start only starts services and appends starts to the log |
| ServiceManager.StartAllBringsAllUp | include/ServiceManager.h:168-178 | a `startAll` with the corrected start that terminates leaves every registered service up |
| ServiceManager.StartAllOfAsWritten | include/ServiceManager.h:168-178 | `startAll` as written, over `startService` as written, only starts services and appends starts to the log |
| ServiceManager.StartAllAsWrittenBringsAllUp | include/ServiceManager.h:168-178 | a `startAll` as written that terminates leaves every registered service up, provided the map is key-ordered and every registered service has an entry or is some entry's dependent (which registration keeps) |
| ServiceManager.StopAllOf | include/ServiceManager.h:253-263 | `stopAll` leaves every registered service down and starts none |
| ServiceManager.DependentsAreSet | include/ServiceManager.h:54-55 | every dependents entry is an ordered set |
| ServiceManager.Register | include/ServiceManager.h:84-89 | `addService` changes no up flag and logs nothing |
| ServiceManager.RegisterAfter | include/ServiceManager.h:91-129 | `addServiceAfter` changes no up flag and logs nothing |
| ServiceManager.RegisterEffect | include/ServiceManager.h:84-89 | `addService` registers the name (keeping an existing registration), resets its dependents to none, leaves every other entry alone, and keeps the maps ordered |
| ServiceManager.RegisterKeepsCovered | include/ServiceManager.h:84-89 | registering a name without dependents keeps every registered service a key or a dependent in the map, which the start as written needs to reach it |
| ServiceManager.RegisterAfterEffect | include/ServiceManager.h:91-129 | with an unregistered base nothing changes; otherwise the name is registered and, unless either already follows the other, added to the base's dependents, no other entry changing |
| ServiceManager.RegisterAfterKeepsCovered | include/ServiceManager.h:91-129 | `addServiceAfter` keeps every registered service a key or a dependent in the map |
| ServiceManager.Manager.constructor | include/ServiceManager.h:80-82 | a new manager has no services and no dependencies |
| ServiceManager.Manager.AddService | include/ServiceManager.h:84-89 | `addService` performs the reference registration |
| ServiceManager.Manager.AddServiceAfter | include/ServiceManager.h:91-129 | `addServiceAfter` performs the reference registration |
| ServiceManager.Manager.FindDeps | include/ServiceManager.h:180-198 | the loop over the dependency map yields the reference prerequisites |
| ServiceManager.Manager.StartService | include/ServiceManager.h:200-215 | `startService` performs the corrected reference start |
| ServiceManager.Manager.StartEachOf | include/ServiceManager.h:207-213 | the `for_each` loop performs the reference sequence of starts |
| ServiceManager.Manager.StartServicePrivate | include/ServiceManager.h:341-354 | a registered service that is down is started; otherwise nothing happens |
| ServiceManager.Manager.StopServicePrivate | include/ServiceManager.h:327-340 | a registered service that is up is stopped; otherwise nothing happens |
| ServiceManager.Manager.StopService | include/ServiceManager.h:234-251 | `stopService` performs the reference stop |
| ServiceManager.Manager.StartAll | include/ServiceManager.h:168-178 | `startAll` starts every registered service in name order, with the corrected start |
| ServiceManager.Manager.StopAll | include/ServiceManager.h:253-263 | `stopAll` stops every registered service in name order |
| ServiceManager.Manager.GetDepList | include/ServiceManager.h:308-325 | `getdeplist` yields the direct dependents only, discarding its recursive calls' results |
| ServiceManager.Manager.DestroyService | include/ServiceManager.h:355-374 | `destroyService` performs the reference destruction |
| ServiceManager.Manager.DestroyEachOf | include/ServiceManager.h:363-370 | the loop destroys the dependents in order |
| ServiceManager.Manager.DestroyAll | include/ServiceManager.h:376-385 | `destroyAll` starts nothing and, when every destruction terminates, leaves no registered service and every service that was registered down; it never adds a name and keeps the dependency map |
| ServiceManager.PutKeepsSets | include/ServiceManager.h:118-128 | storing an ordered set keeps every dependents entry an ordered set |
| ServiceFacade.Facade.constructor | include/ServiceFacade.h:60-65 | a new service holds its name, is down and has run no hook |
| ServiceFacade.Facade.IsUp | include/ServiceFacade.h:66-69 | `isup` reports the up flag |
| ServiceFacade.Facade.GetName | include/ServiceFacade.h:81-84 | `getName` reports the name the service was built with |
| ServiceFacade.Facade.IsDown | include/ServiceFacade.h:76-79 | `isdown` is always the negation of `isup` |
| ServiceFacade.Facade.Stop | include/ServiceFacade.h:86-91 | `stop` runs `onStop` whatever the current state, then the service is down |
| ServiceFacade.Facade.Start | include/ServiceFacade.h:93-98 | `start` runs `onStart` whatever the current state, then the service is up |
| ServiceFacade.Facade.Restart | include/ServiceFacade.h:70-74 | `restart` runs `onStop` then `onStart` and always ends up |
| Sequences.Step | include/Sequence.h:66-106 | one `getNext` throws `out_of_range` exactly at the end of a non-rotating sequence (leaving the value), and otherwise moves the value one place modulo 2^64 and returns it |
| Sequences.StepsAreInverse | include/Sequence.h:66-106 | a reverse step undoes a forward step that did not throw, and the other way round |
| Sequences.AdvanceCounts | include/Sequence.h:60-133 | after n calls short of the end the counter has moved exactly n places |
| Sequences.RotateHasFullPeriod | include/Sequence.h:60-106 | under Rotate, n calls move the counter n places modulo 2^64, so it cycles through every value |
| Sequences.ShiftMod | include/Sequence.h:69-74 | one full turn of 2^64 does not change a value modulo 2^64 |
| Sequences.ForwardMod | include/Sequence.h:69-84 | a wrapped increment followed by k more is k + 1 increments modulo 2^64 |
| Sequences.BackwardMod | include/Sequence.h:90-105 | a wrapped decrement followed by k more is k + 1 decrements modulo 2^64 |
| Sequences.Sequence.constructor | include/Sequence.h:110-112 | a forward sequence starts at 0, a reverse one at 2^64 - 1 |
| Sequences.Sequence.Copy | include/Sequence.h:114-116 | the copy constructor copies the value |
| Sequences.Sequence.Assign | include/Sequence.h:118-122 | assignment copies the other sequence's value |
| Sequences.Sequence.GetNext | include/Sequence.h:66-106 | `getNext` updates the value and returns exactly as the reference step says |
| Sequences.Sequence.GetCurrent | include/Sequence.h:124-127 | `getCurrent` reports the current value without changing it |
| MessageKeys.Copy | include/MessageKeyType.h:30-33 | the copy constructor copies both words |
| MessageKeys.Trichotomy | include/MessageKeyType.h:35-68 | exactly one of `<`, `==`, `>` holds; `>` mirrors `<`; `==` is equality of both words; `!=`, `<=` and `>=` are the negations of `==`, `>` and `<` |
| MessageKeys.LessTransitive | include/MessageKeyType.h:43-50 | `<` is transitive |
| MessageKeys.LessIsWideLess | include/MessageKeyType.h:43-50 | `<` orders keys as the 128-bit numbers left * 2^64 + right |
| DBKeyTypes.FromKey | include/DBKeyType.h:33-36 | construction from a `Key` copies both words |
| DBKeyTypes.FromKeyPreservesOrder | include/DBKeyType.h:43-79 | converting keys keeps every comparison: the struct orders keys as `Key` does |
| DBKeyTypes.Cell.constructor | include/DBKeyType.h:28-31 | the two-word constructor stores both words |
| DBKeyTypes.Cell.Assign | include/DBKeyType.h:81-86 | assignment copies both words |
| DBKeys.AtomicDBKey.constructor | include/DBKey.h:82-85 | the two-word constructor stores both words |
| DBKeys.AtomicDBKey.Copy | include/DBKey.h:87-90 | the copy constructor copies both words |
| DBKeys.AtomicDBKey.Assign | include/DBKey.h:73-78 | assignment copies both words |
| DBKeys.AtomicAgreesWithStruct | include/DBKey.h:35-71 | the atomic key compares exactly as the plain struct holding the same words, and `<=`, `>=` are the negations of `>`, `<` |
| DBKeys.DBKeyAccess.constructor | include/DBKey.h:141 | the default constructor; the key, unspecified in the source, starts at zero |
| DBKeys.DBKeyAccess.FromWords | include/DBKey.h:132-135 | the two-word constructor stores both words through the private `set(l, r)` at lines 212-217 |
| DBKeys.DBKeyAccess.FromKey | include/DBKey.h:136-139 | the key constructor copies the key through the private `set(ref)` at lines 219-224 |
| DBKeys.DBKeyAccess.Set | include/DBKey.h:143-147 | `set(timespec)` copies the seconds into the left word and the nanoseconds into the right |
| DBKeys.DBKeyAccess.UseTimespec | include/DBKey.h:149-156 | the callback gets a timespec with the left word as seconds and the right as nanoseconds |
| DBKeys.DBKeyAccess.UsePair | include/DBKey.h:167-171 | the callback gets the left and the right word |
| DBKeys.DBKeyAccess.UseValue | include/DBKey.h:173-183 | the callback gets a 16-byte value holding the left word, then the right |
| DBKeys.DBKeyAccess.SetKey | include/DBKey.h:184-189 | `setKey` writes the left word to `key[0]` and the right to `key[1]`, and nothing else |
| DBKeys.TimespecRoundTrip | include/DBKey.h:143-156 | setting from a timespec and reading it back through `use` yields the same timespec |
| LMDBWriters.DbWrite | include/LMDBWriter.h:179-239 | one `dbWrite` never lengthens the queue and only adds notifications; a rethrown failure keeps the object queued and adds at most one notification |
| LMDBWriters.DbWriteRules | include/LMDBWriter.h:179-239 | `dbWrite` leaves an empty queue alone; a performed write notifies (true, key), drops the subscription and pops; a declined one pops silently; key-not-found notifies (true, key) and keeps both; any other failure of the write notifies (false, key), keeps both and is rethrown; a transaction that fails to begin notifies the subscriber of whatever the uninitialised `key` holds (an input), keeps both and is rethrown |
| LMDBWriters.BeginFailureMissesSubscriber | include/LMDBWriter.h:185-191 | when the transaction fails to begin and the uninitialised `key` differs from the front key, the front key's subscriber gets no note and keeps its subscription, and the exception is rethrown |
| LMDBWriters.Drain | include/LMDBWriter.h:107-117 | the drain never lengthens the queue, only adds notifications, and without outcomes changes nothing |
| LMDBWriters.DrainOnlyConsumes | include/LMDBWriter.h:107-117 | the drain only takes objects off the front of the queue, only adds notifications and only drops subscriptions |
| LMDBWriters.DrainStep | include/LMDBWriter.h:107-117 | one round of the drain is one `dbWrite`, and a rethrown exception ends it |
| LMDBWriters.DrainWritesEverything | include/LMDBWriter.h:107-117 | when the database performs every write, the drain empties the queue and every subscriber of a queued key is notified of success and unsubscribed |
| LMDBWriters.DBWriter.constructor | include/LMDBWriter.h:57-62 | a new writer runs, may not be destroyed yet, and has an empty queue and no subscribers |
| LMDBWriters.DBWriter.Write | include/LMDBWriter.h:66-80 | `write` throws once stopped, changing nothing; otherwise it keeps an existing subscription for the key (or adds this one), appends the object and posts the event |
| LMDBWriters.DBWriter.Size | include/LMDBWriter.h:82-86 | `size` is the queue length |
| LMDBWriters.DBWriter.DbWriteOnce | include/LMDBWriter.h:179-239 | one `dbWrite` changes the queue, the subscriptions and the notifications as the reference rules say, a failure to begin the transaction included |
| LMDBWriters.DBWriter.Shutdown | include/LMDBWriter.h:121-136 | `shutdown`, `onCancel` and the destructor stop the run loop and change nothing else (each after `wait_save`, lines 170-177) |
| LMDBWriters.DBWriter.DrainRemaining | include/LMDBWriter.h:106-118 | after the run loop, the remaining objects are written as the reference drain says, the first escaping exception ends it, and destruction is then allowed |
| QueueTxns.Adapter.constructor | include/QueueTxn.h:26 | the shared writer adapter starts with no requests |
| QueueTxns.Adapter.Write | include/QueueTxn.h:62 | the adapter's `write` hands over exactly one request |
| QueueTxns.QueueTxn.constructor | include/QueueTxn.h:33-37 | a transaction holds its adapter, data and key, and is not aborted |
| QueueTxns.QueueTxn.GetData | include/QueueTxn.h:41-44 | `getData` hands back the data the transaction was built with |
| QueueTxns.QueueTxn.Abort | include/QueueTxn.h:47-50 | after `abort` the transaction is aborted, however often it is called |
| QueueTxns.QueueTxn.Destroy | include/QueueTxn.h:52-64 | the destructor writes one DEL for the key unless the transaction was aborted, and nothing otherwise |
| QueueTxns.CommitOrAbort | include/QueueTxn.h:47-64 | scenario: a received message's transaction writes exactly one DEL for its key when it is destroyed unaborted, and nothing when it was aborted any number of times first |
| PersistentQueues.Loaded | include/PersistentQueue.h:178-200 | `load` takes no more records than are stored, and at least one exactly when there is one |
| PersistentQueues.Continued | include/PersistentQueue.h:189-195 | after the first pass the do-while takes no more records than remain, and none whose key is 0 |
| PersistentQueues.LoadedIsPrefix | include/PersistentQueue.h:178-200 | `load` takes a prefix of the stored records: all of them, or up to the first record after the first whose key is 0; a non-empty database always yields at least one |
| PersistentQueues.ContinuedIsPrefix | include/PersistentQueue.h:189-195 | after its first pass the do-while takes records up to the first key 0 |
| PersistentQueues.ContinuedStep | include/PersistentQueue.h:189-195 | one more pass of the do-while takes one more record |
| PersistentQueues.LoadedDistinct | include/PersistentQueue.h:178-200 | loading keeps the stored keys distinct |
| PersistentQueues.MaxKey | include/PersistentQueue.h:95 | the largest loaded key bounds every loaded key and is one of them |
| PersistentQueues.PersistentQueue.AsWritten | include/PersistentQueue.h:101-107 | the constructor as written loads the stored records but leaves the key counter at 0 |
| PersistentQueues.PersistentQueue.constructor | include/PersistentQueue.h:101-107 | the corrected constructor loads the stored records and moves the counter to the largest loaded key, so queued keys are distinct and no larger than the counter |
| PersistentQueues.PersistentQueue.Load | include/PersistentQueue.h:178-200 | `load` queues the loaded keys and data in cursor order, posting the trigger once for each |
| PersistentQueues.PersistentQueue.LoadContinued | include/PersistentQueue.h:189-195 | the do-while after its first pass queues the records it takes, posting once each |
| PersistentQueues.PersistentQueue.Send | include/PersistentQueue.h:109-133 | `send` refuses after `destroy`, changing nothing; otherwise it takes the next key (mod 2^64), writes an ADD for it, and queues data and key in lockstep; queued keys stay distinct while the counter does not wrap |
| PersistentQueues.PersistentQueue.Recv | include/PersistentQueue.h:135-153 | after the wait, a running queue hands out its front message and key as a new transaction; an empty one throws `QueueOutOfSync` and a destroyed one `Can_not_lock_mutex`, both leaving the queue alone; it never refuses as `recv(DataType&)` does |
| PersistentQueues.PersistentQueue.RecvInto | include/PersistentQueue.h:155-158 | `recv(DataType&)` always throws `ImplementationForbidden` |
| PersistentQueues.PersistentQueue.Depth | include/PersistentQueue.h:160-164 | `depth` is the number of queued messages |
| PersistentQueues.PersistentQueue.Destroy | include/PersistentQueue.h:166-175 | `destroy` stops the queue and destroys the trigger; queued messages stay |
| PersistentQueues.ReloadReusesKey | include/PersistentQueue.h:101-133 | as written, a message left in the database is reloaded under key 1 and the next send is also given key 1 |
| PersistentQueues.ReloadKeepsKeysDistinct | include/PersistentQueue.h:101-133 | with the corrected constructor the same calls yield keys 1 and 2 |
| PQueueDataTypes.Filled | include/PQueueDataType.h:91-100 | the chunk `set(size, ptr)` makes holds exactly `size` bytes: the first `size` bytes of the source when there is one, zeros otherwise |
| PQueueDataTypes.PQueueData.constructor | include/PQueueDataType.h:42-45 | the sized constructor makes a fresh chunk with exactly those contents |
| PQueueDataTypes.PQueueData.Copy | include/PQueueDataType.h:47-50 | the copy constructor shares the other object's chunk rather than copying it |
| PQueueDataTypes.PQueueData.Assign | include/PQueueDataType.h:52-59 | `operator=` makes this object share the other object's chunk |
| PQueueDataTypes.PQueueData.Size | include/PQueueDataType.h:63-66 | `size` is the length of the shared chunk |
| PQueueDataTypes.SharedAfterCopy | include/PQueueDataType.h:33-50 | after a copy, a change to the chunk made through the copy is seen through the original |
| ConfigReflection.TypeName | include/ConfigReflection.h:97-156 | each variable class reports its own type name, and the four names tell the four classes apart |
| ConfigReflection.CopyTyped | include/ConfigReflection.h:60-63 | the generic copy constructor copies the value and leaves the type name empty |
| ConfigReflection.AssignTyped | include/ConfigReflection.h:65-68 | `operator=` copies the value and keeps the target's type name |
| ConfigReflection.Expose | include/ConfigReflection.h:70-73 | storing into an array through `aaccess` keeps it a sorted map, like `std::map` |
| ConfigReflection.ExposeFinds | include/ConfigReflection.h:70-73 | after `aaccess(a)[name] = x`, `name` finds `x` and every other name finds what it found before |
| ConfigReflection.SetAt | include/ConfigReflection.h:162-163 | storing through `paccess` at a nested array keeps every array in the tree a sorted map |
| ConfigReflection.SetAtUpdates | include/ConfigReflection.h:162-163 | storing through a path changes the array the path leads to by that one entry |
| ConfigReflection.SetAtStores | include/ConfigReflection.h:162-163 | after storing, the path extended by the name leads to the stored variable |
| ConfigReflection.SetAtKeepsArrays | include/ConfigReflection.h:162-163 | storing an entry keeps each array on the path an array |
| ConfigReflection.SetAtKeepsPrefixes | include/ConfigReflection.h:162-163 | the same holds for all prefixes of the path at once |
| ConfigLexemes.Classify | include/Config.h:215-234 | a pending value is stored exactly when it is a number, a boolean or a one-character string, never as an array, and a number keeps its text |
| ConfigLexemes.NameIsRegex | include/Config.h:32 | a text is a name exactly when it is one or more letters followed by letters, digits or underscores, as `rName` matches it whole |
| ConfigLexemes.DecimalIsRegex | include/Config.h:29 | a text is a decimal exactly when it splits into digits, one '.', and one or more digits, the second branch of `rNumber` |
| ConfigLexemes.BoolsAreOnlyBools | include/Config.h:30 | a text is stored as a boolean exactly when it is one of true, false, on, off, and it means true exactly for "on" and "true" |
| ConfigLexemes.StringsAreSingleNonDigits | include/Config.h:31 | under a whole-text match `rString` admits one printable character, and since numbers are tried first only a non-digit one is stored as a string |
| ConfigLexemes.NumberExamples | include/Config.h:29 | example: "42", ".5" and "0x1F" are numbers |
| ConfigLexemes.OtherExamples | include/Config.h:29-31 | example: "1." matches no class, "off" is false and "x" is a string |
| ConfigParser.SavedValue | include/Config.h:215-234 | storing a pending value tries number, then boolean, then one-character string, stores nothing when none matches, and keeps the tree sorted |
| ConfigParser.OnColon | src/Config/parser.cpp:11-50 | the ':' step (with the corrected default branch) never touches the tree or the array stack, and throws the empty-stack error exactly when the lexeme stack is empty, a syntax error otherwise |
| ConfigParser.OnQuote | src/Config/parser.cpp:51-74 | the '"' step keeps every array of the tree sorted |
| ConfigParser.OnOpen | src/Config/parser.cpp:75-104 | the '{' step keeps every array of the tree sorted |
| ConfigParser.OnClose | src/Config/parser.cpp:105-132 | the '}' step keeps every array of the tree sorted |
| ConfigParser.OnComma | src/Config/parser.cpp:133-164 | the ',' step keeps every array of the tree sorted |
| ConfigParser.OnBlank | src/Config/parser.cpp:165-199 | the blank step keeps every array of the tree sorted |
| ConfigParser.Step | src/Config/parser.cpp:7-206 | one `parser(token)` step keeps every array of the tree sorted and never reports "no input"; src/Config/parse.cpp:7-206 is the same step |
| ConfigParser.Run | src/Config/parser.cpp:222-242 | the token loop keeps every array sorted, stops at the first exception and never reports "no input" |
| ConfigParser.Start | src/Config/parser.cpp:215-220 | a parse starts with `INPUT_END` and `MPB` pushed and a fresh "root" array as the one being filled |
| ConfigParser.ColonAsWrittenDiffers | src/Config/parser.cpp:41-47 | the ':' step as written differs from the corrected one exactly when the top lexeme is `MPB`, `MPE` or `INPUT_END` and the name stack is empty, where the diagnostic reads `lastname.top()` |
| ConfigParser.ColonWithoutNameIsUndefined | src/Config/parser.cpp:41-47 | example: a parse of `:` alone, or `{a 1}` followed by `:`, reaches the as-written default branch with no name pending, while the corrected parse of `:` throws a syntax error |
| ConfigParser.OnColonAsWritten | src/Config/parser.cpp:41-47 | the ':' step as written is undefined exactly when the top lexeme is MPB, MPE or INPUT_END and the name stack is empty, and otherwise is the corrected step |
| ConfigParser.OnColonKeepsValid | src/Config/parser.cpp:11-50 | from a well-formed state the corrected ':' step either keeps the state well formed or throws a syntax error |
| ConfigParser.OnQuoteKeepsValid | src/Config/parser.cpp:51-74 | the same for the '"' step |
| ConfigParser.OnOpenKeepsValid | src/Config/parser.cpp:75-104 | the same for the '{' step, which enters a new nested array |
| ConfigParser.OnCloseKeepsValid | src/Config/parser.cpp:105-132 | the same for the '}' step, which leaves the array |
| ConfigParser.OnCommaKeepsValid | src/Config/parser.cpp:133-164 | the same for the ',' step |
| ConfigParser.OnBlankKeepsValid | src/Config/parser.cpp:165-199 | the same for a blank step, which does not check for an empty lexeme stack |
| ConfigParser.StepKeepsValid | src/Config/parser.cpp:7-206 | with the corrected ':' step, every step keeps the stacks well formed (one `MPE VALUE` frame per open array, a name for every value, nested paths to arrays) or throws a syntax error, so it never touches an empty stack |
| ConfigParser.RunKeepsValid | src/Config/parser.cpp:222-242 | the whole token loop keeps the stacks well formed or throws a syntax error |
| ConfigParser.Parsed | src/Config/parser.cpp:208-262 | `parse()` throws "no input" exactly for an empty token list, and on success leaves no array being filled and the tree sorted |
| ConfigParser.StartIsValid | src/Config/parser.cpp:215-220 | the starting state is well formed |
| ConfigParser.ParseIsDefined | src/Config/parser.cpp:208-262 | a parse throws "no input" exactly for an empty token list, otherwise fails only with a syntax error, and on success leaves the lexeme and array stacks empty and the configuration an array |
| ConfigParser.QuotedTextVerbatim | src/Config/parser.cpp:38-40 | inside quotes every token but '"', delimiters included, is appended as it is to the pending text |
| ConfigParser.QuoteStoresString | src/Config/parser.cpp:56-64 | a closing '"' stores the quoted text as a string under the current name in the array being filled |
| ConfigParser.QuoteStores | src/Config/parser.cpp:56-64 | the same, given a current name and an array being filled |
| ConfigParser.CommaStoresValue | src/Config/parser.cpp:138-143 | a ',' after a value that matches a lexeme class stores it under the current name in the array being filled |
| ConfigParser.CommaStores | src/Config/parser.cpp:138-143 | the same, given a current name and an array being filled |
| ConfigParser.ExampleOpens | src/Config/parser.cpp:80-84 | example: a parse starts in `[INPUT_END, MPB]`, and '{' replaces `MPB` with `MPE NAME` |
| ConfigParser.ExampleNames | src/Config/parser.cpp:170-185 | example: a name followed by a blank becomes the current name and `VALUE` is expected |
| ConfigParser.ExampleCloses | src/Config/parser.cpp:115-122 | example: a value closed by '}' is stored and its frame popped |
| ConfigParser.ParseExample | src/Config/parser.cpp:208-262 | example: `{a 1}` parses to root = {a = 1} |
| ConfigParser.Config.constructor | src/Config/Config.cpp:6-18 | a parser holds the tokens of its file, with empty stacks and an empty configuration |
| ConfigParser.Config.SaveValue | include/Config.h:215-234 | the pending value is stored as `SavedValue` says, and true is returned exactly when it matched a class |
| ConfigParser.Config.Colon | src/Config/parser.cpp:11-50 | the corrected ':' step on the parser's fields |
| ConfigParser.Config.Quote | src/Config/parser.cpp:51-74 | the '"' step on the parser's fields |
| ConfigParser.Config.Open | src/Config/parser.cpp:75-104 | the '{' step on the parser's fields |
| ConfigParser.Config.Close | src/Config/parser.cpp:105-132 | the '}' step on the parser's fields |
| ConfigParser.Config.CloseValue | src/Config/parser.cpp:115-122 | '}' after a value: saved, `VALUE` and `MPE` popped, the array left and the name popped |
| ConfigParser.Config.Comma | src/Config/parser.cpp:133-164 | the ',' step on the parser's fields |
| ConfigParser.Config.Blank | src/Config/parser.cpp:165-199 | the blank step on the parser's fields |
| ConfigParser.Config.Parser | src/Config/parser.cpp:7-206 | `parser(token)` changes the fields exactly as `Step` says, or reports its exception |
| ConfigParser.Config.Parse | src/Config/parser.cpp:208-262 | `parse()` changes the fields exactly as `Parsed` says, or reports its exception |
| ConfigParser.Config.Load | src/Config/Config.cpp:6-21 | the constructor's parse ends in the state `Parsed` gives and fails only for no input or a syntax error |
| ConfigSave.BoolText | src/Config/save.cpp:58-59 | a boolean is written as "1" or "0" |
| ConfigSave.Render | src/Config/save.cpp:21-47 | the entries of an array produce text exactly when there are some |
| ConfigSave.EntryText | src/Config/save.cpp:25-64 | each entry is written starting at the indent and ends with a newline |
| ConfigSave.RenderIsJoined | src/Config/save.cpp:21-47 | the separator lines fall exactly between neighbouring entries, plus one in front when the first entry is not marked first |
| ConfigSave.RenderSplit | src/Config/save.cpp:21-23 | the text of the entries splits at any entry into what precedes it and the rest |
| ConfigSave.EraseLastTwo | src/Config/save.cpp:36 | `erase(length() - 2, ...)` succeeds exactly on a text of two or more characters and drops its last two |
| ConfigSave.Save | src/Config/save.cpp:19-66 | the loop writes the entries in map order: `Render` of the array, separators between neighbours and nested arrays indented two more spaces |
| ConfigSave.SaveEntry | src/Config/save.cpp:25-64 | the body of the loop writes one entry's separator and text |
| ConfigSave.SaveAsWritten | src/Config/save.cpp:19-67 | `save` as written writes the same text, then throws exactly when its own indent is shorter than two characters |
| ConfigSave.TopLevelEraseThrows | src/Config/save.cpp:67 | the final erase throws for an empty or one-character indent and succeeds for two spaces |

## Left out

- Threads, locks, condition variables and atomics are not modelled. Each operation runs as one step, so interleavings, lock ordering and the memory order of atomics are outside the model. This includes the double unlock in `tsbqueue::recv(T&)` after the wait.
- Blocking waits are modelled as preconditions: a `wait` requires a ready semaphore. Timed waits take their result as a parameter, and no member models the time spent waiting.
- The clock, the kernel's epoll calls, LMDB's environment, transactions and cursors, sockets, and file reading are not modelled. Their results are inputs.
- `ThreadPool::update` has an empty body. The thread-pool statistics `logStats`, `shakePools` and the purge sleep of `ThreadPoolManager` are also not modelled.
- The cancel-and-join of the `PoolThread` destructor is not modelled, because it is thread control. The `PoolThread` run loop is modelled only while the thread is OK.
- PoolThreads.PoolThread.RunLoop: the runnable found after each wake is an input, and the events the passes consume must already be pending. The `setNextRunnable` of another thread that posts while the pass waits is not interleaved with the loop.
- RScheduler.Scheduler.Drain: the loop test `it != itend` (include/RScheduler.h:186) compares with the end iterator taken once at line 184 from the first deadline's list, which `mSchedule.erase(it1)` at line 194 destroys. From the second pass on, the comparison is between an iterator into the next list and an invalidated one, which is undefined. The model runs the loop until the map is empty, the `break` at lines 196-199, which is what the comparison does when it never finds the two equal.
- RScheduler.Scheduler.Tick: drains through `Drain`, so it has the same undefined `itend` comparison once two or more deadlines are scheduled, and the model's full drain is the same reading of it.
- RScheduler.Scheduler.Add: keys each task at the corrected `Deadline`. The source keys it at the value `DeadlineAsWritten` gives, so a task scheduled 600 ms after 10.5 s is filed under (11 s, -500000 µs) there and under (11 s, 100000 µs) here.
- The `RScheduler` thread-id and log calls are not modelled. The thread pool it enqueues into is a log of enqueued tasks.
- `ServiceManager::getService`, `showservices` and `showdeps` are not modelled: they only look up a service or print.
- `ServiceFacade::onDestroy` and the destructor's log message are not modelled.
- The `Time` class's default value is not part of this model. The scheduler's first wake time is a parameter.
- `SyncDBWriterAdapter` and the LMDB wrapper classes are not part of this model.
- LMDBWriters.DbWriteRules: `uint64_t key` (include/LMDBWriter.h:186) is read before it is written when `WOTransaction` throws `Can_not_begin_txn` (lines 190-191), which is undefined. The model takes the value read as the input `stale` of `BeginFailed`, so the notification it gives for that case is only as definite as that value.
- The `LMDBWriter` main loop is not modelled (wait, then `dbWrite`), apart from the drain at shutdown. Its attempts' outcomes are a bounded input, because a database that keeps answering "key not found" makes the drain loop forever as written.
- `wait_save`'s spin is not modelled. The unknown-operation default throw of `dbWrite` is not modelled either, because the operation type has only ADD and DEL.
- The bitfield views of `DBKey` are not modelled (`getSenderId`, `getTimeStamp` and the `nph` parts). Keys are compared as pairs of words.
- The `ePoll` constructor's failure path is not modelled (`epoll_create1` failing).
- `ePoll` never fills `event.data.fd` before `epoll_ctl`. The model takes the fd of each reported event as an input.
- `ePollInController` uses a poller API (`add(fd)`, `poll(-1)`) that differs from `sys/ePoll.h`. That base is an input and a log, not the `EPoll` module.
- The workflow `StateTask` bodies are foreign. The entity a task leaves behind (through the public setters) and the outcome of each queue `send` are inputs; only the id is assumed to stay.
- Floating point is not modelled. `ThreadPoolManager`'s `tqdp > tc * 1.25` is compared exactly over integers, and its overcommit ratio is not used by the decision. A `Number` in the configuration is kept as its lexeme, and `std::strtod` and the stream's double formatting are a parameter of `save`.
- ThreadPoolManager.ExpandRule: compares `tqdp > tc * 1.25` exactly, where the source compares doubles that can round for counts above 2^53.
- `shared_ptr` reference counts, aliasing through raw pointers and the state an object is left in after an exception are not modelled. Contracts describe the successful path and the exception reported, not the fields left behind by a throw. ThreadPool.Pool.Enqueue is the exception: it states the active list left behind by a failed index insert.
- Diagnostics are not modelled: `printArray`, the `std::cerr` dumps in `parse` and the log calls.
- The tokenizer (`utils::StringTokenizer::scan`) is not part of this model. The parser is given its token list.
- The out-of-line `Config::saveValue` body is not part of this model. `SavedValue` follows the classification shown inline at `include/Config.h:215-234`.
- `ConfigReflection.cpp` and `Config.cpp`'s file reading are not modelled. `Config.cpp`'s constructor is modelled as parsing a given token list (`Load`).
- The stale in-class parser of `include/Config.h:74-296` is not modelled. It calls `parser()` without a token, indexes `token.c_str[0]` and uses `utils::tokenizer`.
- ConfigParser.Parsed: an exception raised inside the token loop is rethrown by `throw e` (src/Config/parser.cpp:240) as a copy of its `std::exception` base, so a caller can catch it as `ConfigSyntax` only for the no-input throw and the final `INPUT_END` check. The model keeps the kind of every fault.
- ConfigParser.Config.Parse: the same slicing of the rethrown exception is not modelled.
- ConfigParser.Config.Load: the same slicing of the rethrown exception is not modelled.
- ConfigReflection.AssignTyped: the templated `operator=` (include/ConfigReflection.h:65-68) has no `return` statement, so using its result is undefined. The model returns the assigned variable.
- The `save` → `parse` round trip is not claimed. `save` writes the tree without the enclosing `{` that `parse` expects first, and numbers pass through the double formatting, which is a parameter here.
- The default throw of `save` for an unknown variable type is not modelled, because every variable is one of the four classes.
- Properties.PropertiesFile.ReadProperties: a line longer than the read buffer makes `getline` fail and the loop spin, and so does a file that failed to open, because `while(!eof())` (include/Properties.h:62-63) never ends on a stream in the fail state. The model takes whole lines of a file that opened.
- Properties.PropertiesFile.GetInt: `atoi` on a digit run too large for `int` is undefined. The model returns the exact value.
- ThreadPoolManager.FloorLog2: is the exact floor of log2. The source converts n to a double and truncates `log2(n)`; at n = 2^49 - 1 the double result rounds to 49.0, so the source expands by 49 where the model says 48, and above 2^53 n itself is rounded.
- ServiceManager.Manager.StartAll: uses the corrected start. The source's `startAll` calls `startService` as written, which `StartAllOfAsWritten` models; `StartAllAsWrittenBringsAllUp` proves it brings every service up too.
- ServiceManager.StartAllOf: the same; it is built on the corrected start.
- DBKeys.DBKeyAccess.constructor: the source leaves the default key uninitialised; the model starts it at zero.
- PersistentQueues.PersistentQueue.Send: the adapter write is taken to succeed; a failure of the foreign writer is not modelled. The same holds for the write in QueueTxns.QueueTxn.Destroy.
- ServiceManager.Start: the recursion carries a `fuel` bound. Any dependency cycle other than one of exactly two services can be registered (a service added after itself passes `OMCrossDep`), and it makes the source recurse forever; the model reports that the bound ran out instead.
- WorkflowEntities.Entity.constructor: ids are unbounded naturals. The source's `uint32_t` width is not modelled, because no operation computes on ids.
- CFifo.Fifo.constructor: requires a positive size, because the source indexes modulo `qsz`.
- ClientSocketsFactory.Factory.GetBlindSocket: requires that the pool can yield a socket, because `front()` and `pop()` on an empty `std::queue` (maxPrebuild 0) are undefined.
- TsQueue.Queue.Front: requires a non-empty queue, because `front()` on an empty `std::queue` is undefined.

## Findings

| source | as written | input that shows it | evidently intended | confidence | as-written member | corrected member |
|---|---|---|---|---|---|---|
| include/ThreadPool.h:73-79 | the prestart loop increments `mThreadsStarted` both in the body and in the `for` header | `ThreadPool(3, 3)` starts 2 threads and sets the counter to 4, above the maximum of 3 | start exactly `min` threads and count each once | high, not executed | ThreadPool.ConstructorOvershoot | ThreadPool.Pool.constructor |
| include/ClientSocketsFactory.h:64-74 | `size_t depth = size() > minQL` stores the comparison (0 or 1), and the refill loop runs from it | maxPrebuild 2 and minQL 5: each call at or below minQL adds one or two sockets, so the pool grows past maxPrebuild | the refill starts from the pool's size and tops it up to maxPrebuild | high, not executed | ClientSocketsFactory.PoolOutgrowsMaximum | ClientSocketsFactory.Factory.GetBlindSocket |
| include/RScheduler.h:122-126 | the offset goes into a local `usec`, but only the carried seconds are added back, and `tv_usec` loses them | now = 10.5 s and 600 ms gives 11 s with −500000 µs, which is 10.5 s again, not 11.1 s | the deadline is now plus the offset, normalised | high, not executed | RScheduler.AsWrittenDeadlineExamples | RScheduler.Deadline |
| include/PersistentQueue.h:101-107 | after `load`, the key counter `mNewKey` is not advanced past the loaded keys | one message left in the database is reloaded under key 1, and the next `send` also gets key 1 | the counter starts after the largest loaded key | medium, not executed | PersistentQueues.ReloadReusesKey | PersistentQueues.PersistentQueue.constructor |
| src/Config/save.cpp:67 | `save` ends by erasing the last two characters of its own by-value indent | a top-level `save(fs, root, "", true)` writes the whole text and then throws `std::out_of_range` | no final erase; the caller's indent is restored by the erase at line 36 | medium, not executed | ConfigSave.TopLevelEraseThrows | ConfigSave.Save |
| src/Config/parser.cpp:41-47 | the default branch of the ':' step prints `lastname.top()` before raising the syntax error | the token list `:`, or `{a 1}` followed by `:`, reaches it with an empty name stack, and `top()` on an empty `std::stack` is undefined | print the name only when there is one, as `parse` does at line 229, then raise the syntax error | high, not executed | ConfigParser.ColonWithoutNameIsUndefined | ConfigParser.OnColon |
| include/ServiceManager.h:218-230 | a service without an entry of its own is started right after the first service it was added after, before the others | X added after both a and b: `startService("X")` starts a, X, then b | start every service X was added after, then X, as the branch at lines 203-215 does | medium, not executed | ServiceManager.StartAsWrittenInterleaves | ServiceManager.Start |

# Nexus.js: a verified model of its scheduler, promises, streams and module paths

Nexus.js runs JavaScript on many threads. This project models the parts of it where the order of
events matters and proves what they keep, whatever the order is. It verifies with Dafny 4.11
(`dafny verify dfyconfig.toml`).

**Scheduler** (`TaskScheduler`, `Scheduler*`, `TaskGroup*`, `DrainLoop`). Any number of threads pop
tasks from one queue, run them, push back coroutines that yield and free the rest; others schedule,
set timers, abort, hold and release. The model is a transition system with one program counter per
thread and call in progress: every load and store of a status, every counter update, every push,
pop, handler call and delete is a step of its own, and a run is any interleaving. Adding a task to a
`TaskGroup` is three such steps (the status is read, then one handler is registered, then the
other), an `abort` is its store, the beginning of its loop and one step for each handler, `exit` the
same without a store. `DrainLoop` is the same loop on one thread, as a loop over mutable task
objects. `boost::thread_specific_ptr::reset` frees the previous pointer when it differs, so a popped
task that was aborted stays in the thread's slot until the next pop or the end of the thread. What a
program asked for and what became of it is counted from the steps of a run (`SchedulerHistory`,
`SchedulerEntries`). Where the code falls short the project gives the run that shows it and proves
the condition under which it does not:

- `abort` takes effect exactly when no thread has passed its abort test for that task.
- A task that is aborted while queued and popped last by the main thread stays in its slot with its
  hold, and `joinPool` waits for ever. When nothing else is left it returns exactly if no thread has
  a plain task parked, and every task parked so was aborted.
- `TaskGroup::attach` does not exclude the threads: a member that ends between the reading of its
  status and the registration of the handler for it is missed, and `await` never returns. When all
  members are over it returns exactly if none was missed.
- Aborting a group member twice, or too late, lets `TaskGroup::await` return too early. It is right
  as long as no member is both aborted and completed, or aborted twice; the counter is exactly the
  number of handlers that were handed over and called.
- Several threads in `balanceThreads` at once can outgrow the maximum by the number of threads less
  one, and for every maximum and number of threads a run does.

**Promises** (`Promise*`). The promise class of `promise.js`: a graph of promises with subscriber
entries, adoption of one promise by another, handlers that run as tasks in any order, and
`Promise.all`, which polls. `Promises` describes one step as a function on values, with the
handler's reply as a parameter; `PromiseObjects` is the class itself, updating its objects in place.
`PromiseCalls`, `PromiseOutside` and `PromiseReplies` say of each call that a program makes, by its
own arguments, what it brings about. `then` with a reject handler on a promise that is already
rejected never calls that handler.

**Streams** (`SinkWrites`, `ChunkedCoding`, `HttpResponse`, `FilterChains`, `StreamPipeline`,
`FileOverHttp`, `Datagrams`). A file push device, the filters of the readable stream, `pipe` to any
number of writable streams with their own filters, the write handler of a sink device, and an HTTP
response that writes chunks to a socket that may fail anywhere. Filters are arbitrary functions of
what they have seen. A filter on a writable stream that answers the final null with data takes the
place of the end: the device is then never told. A UDP socket goes on at the next multiple of the
maximum even when less was taken; the datagrams are the buffer exactly if all but the last were
full.

**Module paths and files** (`ModulePaths`, `ModuleFiles`). String-level splitting, joining and
walking, and the search for a file with extensions, index files and the shebang line. Resolving from
a module that lies directly under the root gives a path with two separators. A file that exists and
cannot be opened counts as an empty module, because the stream's fail bit is not looked at.

**Event emitter** (`EventEmitter`, `EmitterHistory`, `EmitterCalls`, `EmitterObject`). Counted
listeners while handlers emit, register, remove and throw: as steps, as the effects of programs that
call each other, and as the emitter is written, with real recursion through handlers.

**String printer** (`InspectStrings`). Two replacement passes and a reader that undoes them.

## Model

| member | source | states |
|---|---|---|
| SchedulerPlaces.EveryRunIsSafe | src/scheduler.cpp:84-116 | in every interleaving each task is in exactly one place (timer, queue, one thread's hands, freed), is freed at most once, and its handler is never on two threads at once |
| SchedulerEntries.CompletedTaskWasRun | src/scheduler.cpp:93-109 | in runs with timely aborts a task whose completion handlers are called was not aborted, completes once, and its handler was entered, counted from the states of the run, exactly once more than it yielded; a plain task exactly once |
| SchedulerEntries.FinishedTaskWasRun | src/task.cpp:40-75 | nor does a task get to FINISHED without its whole handler being run |
| SchedulerEntries.YieldedIsPutBack | src/scheduler.cpp:101-105 | each yield is followed by one push of the task to the end of the queue, or a thread that found it PENDING is about to push it |
| SchedulerEntries.EveryTaskRunsOrWasAborted | src/scheduler.cpp:84-116 | when nothing is left to run, each task ever scheduled either completed once after its whole handler was run or was aborted and never completed |
| SchedulerEntries.AbortedInsideYieldsNoMore | src/task.cpp:48-57 | a coroutine aborted while its handler runs yields in no continuation whatsoever |
| SchedulerEntries.RunsAreEntries | src/task.cpp:40-75 | the number of runs that other results speak of is the number of entries counted from the states of the run |
| SchedulerHistory.FirstInFirstOut | src/scheduler.cpp:89-105 | over every run the tasks popped and those still queued are, in order, the tasks pushed |
| SchedulerHistory.TasksAreTheScheduled | src/scheduler.cpp:143-149 | the tasks of every state are those of the scheduling calls, with their kinds, in order |
| SchedulerHistory.TimersAreTheDelayed | src/scheduler.cpp:179-214 | a task is on a timer exactly while the timer that a call set for it has not fired |
| SchedulerHistory.PausedAsAsked | include/scheduler.h:60-61 | tasks are paused exactly if the last call of pause() or resume() was one of pause() |
| SchedulerHistory.PausedPopsNoMore | src/scheduler.cpp:86-113 | while tasks are paused no thread pops more than the one task it was just about to pop |
| SchedulerHistory.AbortsAreCounted | include/task.h:92 | the aborts recorded with a task are the calls of abort() on it |
| SchedulerHistory.AbortLoopsAreCounted | include/task.h:92 | the loops over cancellation handlers that group results count are those the run began |
| SchedulerPlaces.StepConserves | src/scheduler.cpp:143-149 | each single step, of any thread or caller, moves a task from one place to another and never copies or loses it |
| SchedulerPlaces.HandsExclusive | src/scheduler.cpp:79-116 | a task in one thread's hands is in nobody else's, not queued, not on a timer and not freed |
| TaskGroupAwait.EveryThreadCanStep | src/scheduler.cpp:84-122 | in every reachable state a thread or call that is not over can take its next step, and every task in its hands exists and was not freed; handler lists never name a member that is not there |
| SchedulerCounters.EveryRunCounts | include/scheduler.h:80-82 | the task counter is, modulo 2^64, the queue length corrected by threads between a queue operation and its counter; `remaining` never reports less than the queue length |
| SchedulerCounters.NoTaskForgotten | src/scheduler.cpp:89-113 | if the task counter reads zero while a task is queued, some thread is just about to count a task it pushed back |
| SchedulerHolds.EveryRunHolds | include/scheduler.h:96-97 | the hold count is live plain tasks, plus the full ones of the Holders that the program made, copied, reset and dropped, plus calls of hold() less calls of release() |
| SchedulerHistory.HoldersAreReplayed | src/scheduler.cpp:221-239 | the Holder objects are those the program made, a copy of a full one full like it, and none of those it reset or dropped full |
| SchedulerHolds.JoinReturnsExactlyWhenReleased | src/scheduler.cpp:162-169 | the test of `joinPool` succeeds if and only if every plain task was deleted, no Holder that the program made is full and every hold() was answered by a release() |
| SchedulerHolds.JoinLeavesNoPlainTask | src/scheduler.cpp:162-188 | when `joinPool` returns no plain task is on a timer, queued, running or parked in a slot |
| SchedulerParking.ParkedTasksAreAborted | src/scheduler.cpp:89-111 | a task in the slot of a thread that is not working on it is live and ABORTED, in every run |
| SchedulerParking.JoinReturnsExactlyWhenNoneParked | src/scheduler.cpp:162-169 | when queue and timers are empty, nobody works on a task and nobody else holds, the test of `joinPool` succeeds if and only if no thread has a plain task parked |
| SchedulerParking.JoinPoolCanReturn | src/scheduler.cpp:162-169 | and then the main thread gets from its dispatcher to the test and out of `joinPool` |
| SchedulerParking.ParkedMainWaitsForEver | src/scheduler.cpp:162-169 | for any number of tasks: with the main thread the last one and a plain task in its slot, `joinPool` never returns by the threads alone |
| SchedulerThreads.PoolNeverOutgrows | src/scheduler.cpp:118-122 | with c threads in `balanceThreads` and maximum m at least 1 the pool never has more than m - 1 + c threads; m when calls are serialised |
| SchedulerAborts.AbortInTimeIsFinal | src/scheduler.cpp:93-110 | a task aborted while no thread is past its abort test never has its handler entered again and never fires completion handlers |
| SchedulerAborts.TooLate | src/task.cpp:32-75 | once a thread is past the test there is a continuation in which a later status overwrites the abort or the completion handlers run |
| SchedulerAborts.AbortStandsExactlyInTime | include/task.h:92-102 | an abort stands in every continuation if and only if no thread had passed its test |
| SchedulerLife.OverIsFinal | src/task.cpp:32-75 | in runs whose aborts come in time FINISHED and ABORTED are never left again |
| TaskGroupAwait.EveryRunCountsHandovers | include/task.h:198-214 | in every run, with any aborts and any interleaving of `attach`, the group's counter is the sum of its members' signals, and a member's signals plus its calls still to be made are exactly its handovers: one if found over, one for each `exit` and each `abort` whose loop began with its handler registered |
| TaskGroupAwait.EachLoopHandsOver | include/task.h:92-94 | each beginning of an `exit` or `abort` loop with a member's handler registered hands that member over once more |
| TaskGroupAwait.ListIsSignalled | include/task.h:211-212 | a thread with handlers to call can call them all, and each adds exactly one signal to its member |
| TaskGroupAwait.AwaitAtRest | include/task.h:216-219 | when no handler is left to be called, `await` returns if and only if there were at least as many handovers as members |
| TaskGroupAwait.AwaitIsRight | include/task.h:216-219 | if no member is handed over twice, `await` returns if and only if each member has signalled, and then every member is over |
| TaskGroupAwait.EarlyReturnNeedsSecondHandover | include/task.h:216-219 | an `await` that returns before some member is over has another member that was handed over at least twice |
| TaskGroupAwait.AwaitIsRightWhenOverOnce | include/task.h:198-219 | so it is right whenever each member's task has aborts and completions of at most one together, whatever happens to other tasks |
| TaskGroupHangs.AwaitReturnsOnlyWhenAllOver | include/task.h:198-219 | in every run with timely aborts `await` returns if and only if each member has signalled, and then every member's status is FINISHED or ABORTED |
| TaskGroupHangs.AwaitReturnsExactlyWhenNoneMissed | include/task.h:205-219 | when all members are over and nothing is in progress, `await` returns if and only if no member's `exit` or `abort` began between the reading of its status and the registration of its handler |
| TaskGroupHangs.MissedNeverReturns | include/task.h:205-219 | once a member was missed `await` returns in no continuation |
| SchedulerWitnesses.AttachCanMissTheEnd | src/classes/emitter.cpp:152-158 | a run from the start in which one scheduled task is aborted, in time, while it is being added to a group, and after which `await` never returns |
| SchedulerWitnesses.WorkerOvertakesAttach | src/classes/emitter.cpp:152-158 | wherever a worker is about to call `exit` of a task whose status `attach` has read, it can go first, and the member is missed |
| SchedulerWitnesses.SecondAbortBreaksAwait | include/task.h:205-214 | a run in which aborting one member twice makes `await` return before another member has started |
| SchedulerPoolBound.PoolBoundIsReached | src/scheduler.cpp:118-122 | that bound is reached for every m at least 1 and every c at least 1, by a run from an initial state with at most c threads in `balanceThreads` at any time |
| SchedulerWitnesses.AbortCanHangJoinPool | src/scheduler.cpp:93-110 | a run after which `joinPool` waits for ever, in every continuation by the threads alone, for an aborted task parked in the main thread's slot |
| DrainLoop.Scheduler.DrainTasks | src/scheduler.cpp:84-116 | the loop terminates for tasks that yield and spawn finitely often, pops them in the order of `Trace`, returns the number of pops and leaves every task finished once, or aborted, not entered again and without completion handlers called |
| DrainLoop.Scheduler.RunFirst | src/scheduler.cpp:89-112 | one round pops the first task and leaves the queue with what it spawned and, if it yielded, itself at the end; aborted tasks stay as they were |
| DrainLoop.Scheduler.Take | src/scheduler.cpp:89-93 | popping parks the task in the slot, deleting an aborted one that was parked there |
| DrainLoop.Scheduler.RunCurrent | src/scheduler.cpp:94-109 | the task in the slot is created, entered, and put back or completed and deleted |
| DrainLoop.Scheduler.Enter | src/task.cpp:40-66 | an entry runs the handler up to its next yield or its end and moves the status accordingly |
| DrainLoop.TraceLength | src/scheduler.cpp:112-115 | the number of pops is the total number of entries of all tasks and of all they spawn |
| DrainLoop.EachEnteredExactly | src/scheduler.cpp:94-104 | each task is popped exactly as often as it yields, plus once |
| DrainLoop.QueueIsPoppedNext | src/scheduler.cpp:89-104 | at any moment the tasks then queued are popped next, in order, before anything queued later |
| DrainLoop.FairBetweenEntries | src/scheduler.cpp:101-105 | between two entries of a task every other task queued in between, old or just spawned, is entered exactly once |
| PromiseInvariant.SettleKeepsOk | src/js/globals/promise.js:33-76 | settling a promise and scheduling its entries keeps the invariant of the whole graph |
| PromiseSteps.StepOk | src/js/globals/promise.js:7-132 | every step of a program (creating, resolving, rejecting, `then`, `all`, and any task with any reply of its handlers) keeps that invariant |
| PromiseSteps.OnAdoptedOk | src/js/globals/promise.js:24-48 | an adopting promise gets exactly the adopted value: the trailing undefined finds it settled, because settled values are never promises |
| PromiseSteps.DecideMeans | src/js/globals/promise.js:120-130 | a poll resolves with all values when all are resolved, else rejects with the first rejected member in array order, else waits because some member is pending |
| PromiseTheorems.StepShape | src/js/globals/promise.js:33-76 | one step settles at most one promise and schedules exactly one task for each of its chosen entries, and for no other entry |
| PromiseTheorems.SettlesOnce | src/js/globals/promise.js:10-14 | over every run a promise settles at most once, with a value that is no promise, and keeps its state for good |
| PromiseTheorems.EachEntryServedOnce | src/js/globals/promise.js:35-76 | over a whole run each subscriber entry is scheduled at most once; one with a matching handler that was there when its promise settled exactly once |
| PromiseTheorems.ChildFollowsParent | src/js/globals/promise.js:37-49 | a child of `then` settles only after its parent, with the flattened result of the handler called last; handlers get the parent's value or reason, or what the fulfil handler threw |
| PromiseTheorems.AllResolvesWithAll | src/js/globals/promise.js:117-132 | `Promise.all` resolves only with the list of all values, all its promises being resolved, and rejects only for a rejected member |
| PromiseTheorems.DecidingPoll | src/js/globals/promise.js:120-130 | the poll that rejects does so with the first member in array order that is rejected at that moment; a poll that decides nothing schedules exactly the next one |
| PromiseTheorems.QuietChildren | src/js/globals/promise.js:50-107 | when all tasks have run, the state of every child is what its parent's outcome and its handlers' replies make it; a child without a reject handler of a rejected parent is rejected with its reason if and only if it waited with a fulfil handler when the parent was rejected and no entry that waited then had a reject handler, else it stays pending; no handler the outcome calls for was missed |
| PromiseTheorems.EarlyThenEqualsLateThen | src/js/globals/promise.js:92-107 | `then` before and after a promise resolves: when all tasks have run both fulfil handlers were called with its value, and equal replies without an exception gave both children the same outcome |
| PromiseTheorems.LateCatchIsNeverCalled | src/js/globals/promise.js:97-98 | a reject handler given to a promise that is already rejected is never called |
| PromiseCalls.ThenOnPending | src/js/globals/promise.js:92-107 | for each call of `then` or `catch` on a pending promise, by the handlers of that call and for every outcome of the promise: when all tasks have run the new child is what the outcome and the handlers' replies make it |
| PromiseCalls.ThenOnSettled | src/js/globals/promise.js:93-99 | for each call on a settled promise with a handler for its outcome, that handler hangs on a new promise of the same outcome, in the resolve slot |
| PromiseCalls.ThenInVain | src/js/globals/promise.js:104-106 | a call on a settled promise with a handler for the other outcome only gives a child that never settles and calls nothing |
| PromiseCalls.ThenWithoutHandlers | src/js/globals/promise.js:101-103 | a call without handlers gives a promise rejected with a TypeError |
| PromiseCalls.GivenByCall | src/js/globals/promise.js:111-116 | each call of `Promise.resolve` or `Promise.reject` gives a promise with the outcome of the value, or the reason, of that call |
| PromiseCalls.AllByCall | src/js/globals/promise.js:117-132 | each call of `Promise.all` gives a promise that has settled when all tasks have run, with all values of the items of that call or for a rejected one of them, and with a TypeError if an item is missing |
| PromiseCalls.SettledByCall | src/js/globals/promise.js:10-53 | resolve with a plain value and reject, called by an executor, settle a pending promise for good with that value or reason, and change nothing in a settled one |
| PromiseCalls.ResolvedWithItself | src/js/globals/promise.js:11-12 | resolving a promise with itself changes nothing |
| PromiseCalls.AdoptedOutcomeArrives | src/js/globals/promise.js:15-33 | a promise resolved with another one has settled when that one has and all tasks have run |
| PromiseCalls.ThrowsIfNobodyIsServed | src/js/globals/promise.js:55-80 | broadcastReject throws if and only if it settles the promise and schedules no task |
| PromiseOutside.OutsideStateWasAskedFor | src/js/globals/promise.js:10-53 | over every run a settled promise made with `new Promise` has the value or reason of a call of its own resolving functions, or the outcome of a promise that such a call resolved it with |
| PromiseReplies.CallsCameFromTask | src/js/globals/promise.js:37-66 | the handler calls of a promise come from the one task that served its entry, with the parent's outcome as argument and the replies that the handlers gave in that task |
| PromiseObjects.Library.BroadcastResolve | src/js/globals/promise.js:10-49 | the method on objects, with its loop over subscribers, does what `Resolve` says, and throws exactly on resolving a promise with itself |
| PromiseObjects.Library.BroadcastReject | src/js/globals/promise.js:50-80 | the method on objects does what `Decline` says, and throws exactly when it settles a promise nobody listens to |
| PromiseObjects.Library.Then | src/js/globals/promise.js:92-107 | `then` on objects, in each state of the promise and for each choice of handlers |
| PromiseObjects.Library.Examine | src/js/globals/promise.js:120-127 | the loop over the collection decides as `Decide` |
| PromiseObjects.Library.Run | src/js/globals/promise.js:35-90 | taking any task from the scheduler and running it on objects is the step on values |
| SinkWrites.EveryCallSendsAPrefix | src/classes/io/device.cpp:466-505 | with any number of overlapping writes and any short counts the device's log is an interleaving of prefixes of the buffers, the promised number is the prefix's length, and each unfinished call has exactly one handler scheduled |
| SinkWrites.CallsAreTheWrites | src/classes/io/device.cpp:448-504 | every non-empty buffer written becomes a call with a handler of its own, in the order of the writes |
| SinkWrites.EndsAreReported | src/classes/io/device.cpp:448-453 | the device hears of the end exactly once for each write(null) that found it ready |
| SinkWrites.FateOfEachCall | src/classes/io/device.cpp:466-505 | over every run what becomes of a call is decided by its length and what the device said in its own tasks alone: fulfilled if and only if earlier tasks had room for the whole buffer or the last one found a device that refuses, rejected if and only if bytes were left and the last one met an error; the promised number and the bytes in the log are the smaller of room and length |
| SinkWrites.StopsShortExactlyWhen | src/classes/io/device.cpp:471-493 | a call that was fulfilled counts less than its buffer if and only if its earlier tasks did not have room for the buffer and its last task found the device closed, or ready and recommending nothing, without an error |
| SinkWrites.RefusedButWhole | src/classes/io/device.cpp:471-493 | a run in which the last task finds the device closed and yet the whole buffer was sent |
| SinkWrites.EveryCallFinishes | src/classes/io/device.cpp:471-493 | while the device is ready, open, error-free and takes something, all handlers together run at most one task for each byte and one more for each call, and then every buffer written is sent whole |
| SinkWrites.SinkDevice.WriteHandler | src/classes/io/device.cpp:470-503 | one task of the handler on the device's fields is one turn of the model |
| SinkWrites.SinkDevice.Write | src/classes/io/device.cpp:448-458 | null reaches the device only if it is ready, an empty buffer makes no call, any other starts one handler |
| ChunkedCoding.PiecesAreDecoded | src/classes/net/http/response.cpp:50-62 | the decoder of section 4.1 of RFC 7230 gives back the concatenation of the non-empty pieces before the last chunk and leaves what follows it |
| ChunkedCoding.HexIsPlain | src/classes/net/http/response.cpp:50-54 | sizes are written in lower case and without leading zeros |
| ChunkedCoding.CutShortIsMalformed | src/classes/net/http/response.cpp:50-62 | a body cut off at any byte before its end is never decoded as a complete one |
| ChunkedCoding.UnfinishedIsMalformed | src/classes/net/http/response.cpp:56-62 | a body without the last chunk is never complete |
| HttpResponse.HandlerCuts | src/classes/io/device.cpp:485-490 | on an open connection the write handler cuts a buffer into consecutive parts of at most 65535 bytes |
| HttpResponse.CutSizes | include/classes/net/http/response.h:80 | every data chunk has 1 to 65535 bytes |
| HttpResponse.CutJoins | src/classes/io/device.cpp:485-490 | the parts put together are the buffer as far as the tasks that found the connection open go, 65535 bytes for each |
| HttpResponse.BodyDecodes | src/classes/net/http/response.cpp:38-64 | the body written by any awaited writes and the last chunk decodes to exactly the bytes the promises counted, with nothing left over |
| HttpResponse.BodyIsEverything | src/classes/net/http/response.cpp:38-64 | such a body decodes to the concatenation of all buffers if and only if the connection stayed open for enough tasks of every write |
| HttpResponse.Response.DeviceWrite | src/classes/net/http/response.cpp:38-64 | the header goes out once and first, its flag being set before, then one chunk for each call; when the write of either fails the exception leaves a wire that stops within it, and the end of the body is reported even if its chunk failed |
| HttpResponse.Response.RunHandler | src/classes/io/device.cpp:470-503 | the handler's tasks on a response send the parts in order and count their bytes, until all are sent, the connection closes, or a write fails and the promise is rejected |
| HttpResponse.Response.AwaitedWrite | src/classes/io/device.cpp:470-503 | a rejected write leaves a response that no client takes for complete |
| HttpResponse.Response.Finish | src/classes/io/device.cpp:448-456 | after write(null) a client has a complete response if and only if the device was ready and neither header nor last chunk failed, and its body then decodes to what the promises counted |
| FilterChains.ThroughAppend | src/js/io/writable_stream.js:51-54 | a chain of stateful filters works item by item: later items change no earlier result |
| StreamPipeline.StepOk | src/js/io/readable_stream.js:51-66 | every step of the pipeline keeps its invariant: position in the file, what each filter has seen, what each target was given, has finished and has sent |
| StreamPipeline.PipedInOrder | src/js/io/readable_stream.js:120-143 | at the end the blocks are the whole file, each of 1 byte to 8 MiB, and every device got exactly the image of them in file order under both filter chains |
| StreamPipeline.NextBlockWaits | src/classes/io/devices/file.cpp:185-195 | the next block is read only after every target has taken the image of all blocks before, to the last byte |
| StreamPipeline.DevicesSeePrefixes | src/js/io/writable_stream.js:51-54 | at every moment a device has taken a prefix of what it is to take |
| StreamPipeline.EndReachesTargets | src/js/io/readable_stream.js:56-66 | with any filters the last thing a target is given is null; it is the only null if and only if no filter of the readable stream made null of a block |
| StreamPipeline.DeviceHearsEndExactlyWhen | src/js/io/writable_stream.js:51-54 | with any filters a target's device is told the end exactly once and last if and only if the target's filters make null of the final null and of nothing before it |
| StreamPipeline.KeptDataEndsOnce | src/js/io/writable_stream.js:51-54 | behind filters that keep data data only what they make of the final null decides |
| StreamPipeline.StepDecreases | src/classes/io/devices/file.cpp:161-226 | every step of every run decreases a well-founded measure, so that every run ends |
| StreamPipeline.SomeStepEnabled | src/js/io/readable_stream.js:126-135 | until it is over a run can always go on |
| StreamPipeline.EveryRunCanFinish | src/js/io/readable_stream.js:126-143 | from every state of every run the end is reached by always taking some enabled step |
| FileOverHttp.FilePushDevice.ReadHandler | src/classes/io/devices/file.cpp:161-221 | the read handler on the stream's position and flag is the reading step, and its event is data, end or another try |
| FileOverHttp.FilePushDevice.AfterData | src/classes/io/devices/file.cpp:185-192 | when the "data" event's promise resolves the device reads on or ends as the gathering step of the pipeline does |
| FileOverHttp.PipedFileIsDecoded | src/classes/net/http/response.cpp:38-64 | end to end: decoding the body of a response that heard its end gives the bytes of the image of the file's blocks |
| FileOverHttp.PlainFileArrives | src/js/io/readable_stream.js:120-143 | without filters decoding gives exactly the file |
| FileOverHttp.Respond | src/classes/net/http/response.cpp:38-64 | a response object handed the items of a finished target is complete if and only if the device is ready and the socket sound at the end, and then decodes to the bytes of those items |
| Datagrams.UDPSocket.DeviceWrite | include/classes/io/devices/socket.h:184-200 | each send starts 65507 bytes after the one before whatever that one took, is offered what the counts say is left, and the number reported is the sum of the counts; the loop ends at the end of the buffer or the first failure and throws exactly for one that is no cancellation |
| Datagrams.TilesExactlyWhenFull | include/classes/io/devices/socket.h:188-199 | nothing of the buffer is skipped if and only if every send but the last took a full 65507 bytes |
| Datagrams.TilesAreTheBuffer | include/classes/io/devices/socket.h:188-199 | then the datagrams together are the prefix of the buffer that is reported as written |
| Datagrams.WholeDatagramsSendAll | include/classes/io/devices/socket.h:188-199 | a network that takes every datagram whole gets the whole buffer |
| Datagrams.ShortCountSkips | include/classes/io/devices/socket.h:188-199 | a call that reports the whole buffer as written although five bytes of it were skipped |
| Datagrams.SplitIsUnique | include/classes/io/devices/socket.h:184-200 | full datagrams with a shorter last one determine how a buffer was split |
| ModulePaths.DirectoryHasRoot | src/global_object.cpp:144-162 | a referrer has a directory exactly if it has a separator, and its root ends at the first one |
| ModulePaths.ResolvePath | src/global_object.cpp:164-189 | the loops over components compute `Resolve` |
| ModulePaths.SplitJoin | src/global_object.cpp:166-188 | splitting undoes joining of components without separators |
| ModulePaths.JoinSplit | src/global_object.cpp:166-188 | joining undoes splitting of any path |
| ModulePaths.ImportsComposeExactlyWhen | src/global_object.cpp:144-189 | importing M2 from the module that M1 resolves to is importing M1 + "/../" + M2 if and only if that module lies at least two components deep, or M2 goes up past its start, or M2 leads nowhere |
| ModulePaths.RootReferrerGetsTwoSeparators | src/global_object.cpp:153-160 | the smallest failing case: from a module directly under the root, "m" resolves to "//m" |
| ModulePaths.ResolvedIsProper | src/global_object.cpp:172-178 | from a directory without "", "." and ".." components, and for absolute names from any, the result has none either |
| ModulePaths.ResolvingAgainChangesNothing | src/global_object.cpp:164-189 | resolving such a Unix path again from any directory gives it back |
| ModuleFiles.LookupExactly | src/global_object.cpp:212-231 | the file found is the name asked for with at most one extension and then any number of "index" parts of directories, each with at most one extension, an extension standing only where the bare path does not exist and ".js" only where ".mjs" does not either; and every file that can be spelled so is found |
| ModuleFiles.TrailEnds | src/global_object.cpp:212-231 | every search ends, at a file or where nothing is left to try |
| ModuleFiles.TrailDecides | src/global_object.cpp:215-225 | whichever way a search goes decides it: an existing file before extensions, ".mjs" before ".js", and nothing found exactly at a dead end |
| ModuleFiles.Fetch | src/global_object.cpp:212-243 | the recursion over a file tree terminates and returns the found file's bytes with the shebang line commented out, no bytes if the file cannot be opened, and false if nothing is found or a probe throws |
| ModuleFiles.ConvertShebang | src/global_object.cpp:200-205 | in place, the buffer becomes `Commented` of it |
| ModuleFiles.ShebangGoesOnce | src/global_object.cpp:200-205 | exactly files that begin with "#!" change, these two bytes become "//", and once is enough |
| EventEmitter.CalledExactly | src/js/io/readable_stream.js:7-33 | under any re-entrant use a registration with count n is called exactly min(n, visits) times, never for n <= 0; a once listener at most once |
| EmitterHistory.CalledAsAskedFor | src/js/io/readable_stream.js:7-33 | said of the calls of on, once and many, and of visits and calls counted from the run: the handler of a call with count n is called on exactly min(n, v) of the v visits |
| EmitterHistory.RegistrationsAreTheCalls | src/js/io/readable_stream.js:7-18 | every registration has the functor, the event and the count of its call, in the order of the calls |
| EmitterHistory.ListenersAreTheCalls | src/js/io/readable_stream.js:7-40 | the listeners of an event are those registered for it by a call that no later off with their functor, or allOff, has taken away |
| EmitterHistory.OthersAreTheRest | src/js/io/readable_stream.js:34-37 | off takes away exactly the listeners with its functor |
| EventEmitter.EmitStartsWithListeners | src/js/io/readable_stream.js:19-40 | an emit starts with exactly the listeners registered for its event and not removed since, in order of registration |
| EventEmitter.VisitsItsSnapshot | src/js/io/readable_stream.js:19-33 | every emit visits the listeners of its snapshot in order, each once, and all of them unless a handler throws |
| EventEmitter.EmitVisitsItsListeners | src/js/io/readable_stream.js:19-33 | from its call to its end an emit goes by the listeners its event had at the call: those visited are a prefix of them, and all of them when it ends, whatever handlers register, remove or emit meanwhile |
| EventEmitter.FilteredListeners | src/js/io/readable_stream.js:34-37 | the filter of `off` leaves exactly the listeners with another functor |
| EventEmitter.NeverStuck | src/js/io/readable_stream.js:7-40 | every call can always be made, and an emit whose handler has returned always goes on or ends |
| EmitterCalls.EmitVisitsAllListeners | src/js/io/readable_stream.js:19-33 | an emit that does not throw leaves one more finished frame than the emits nested in it, and that frame has visited exactly the listeners its event had at the call, in order |
| EmitterCalls.EmitThrowsExactly | src/js/io/readable_stream.js:19-33 | an exception comes out of an emit if and only if one comes out of a handler it calls, which is then the last |
| EmitterCalls.PerformsItsActions | src/js/io/readable_stream.js:7-40 | at its own depth a program takes one step for each of its actions, in order, all of them or all up to an uncaught exception; it throws exactly then or if it throws after its last action |
| EmitterObject.Emitter.EmitEvent | src/js/io/readable_stream.js:19-33 | the loop, with real calls of handlers that call the emitter again or throw, terminates and has the effect `Emitted`, which is a run of the model and restores the stack of emits |
| EmitterObject.Emitter.Perform | src/js/io/readable_stream.js:7-40 | so has any program of registering, removing and emitting the effect `Performed` |
| EmitterObject.Emitter.On | src/js/io/readable_stream.js:7-18 | `on`, `once` and `many` push a registration, making the array if there is none |
| EmitterObject.Emitter.Off | src/js/io/readable_stream.js:34-37 | `off` replaces the array and leaves the one an emit may be going through |
| InspectStrings.PrintedIsRead | src/js/globals/inspect.js:212-222 | a reader of the escapes gives back every string, whatever follows it, and stops right after its last quote |
| InspectStrings.PrintsDifferently | src/js/globals/inspect.js:212-222 | a printed string begins another if and only if the strings are equal |
| InspectStrings.PrintsPlainly | src/js/globals/inspect.js:212-222 | a printed string has no control characters and its first quote that is not escaped is its last character |
| InspectStrings.PrintsEachCharacter | src/js/globals/inspect.js:212-222 | quotes and backslashes print after a backslash, five control characters by their letters, the others as two lower-case digits, and every other character for itself |

## Left out

- Whether a thread leaves its dispatcher is a free choice of the model in every round; the service's
  own queue of ready timers, the 200 microsecond sleeps and `stop` are not modelled.
- Tasks that initialise a thread (`scheduleThreadInitTask`) run before any other and are not modelled.
- Handlers of native tasks do not throw out of their task.
- One `TaskGroup` is followed at a time; `AbstractTask::await` on a single task is not.
- SchedulerCounters.EveryRunCounts: the claim about `remaining` is stated for queues and thread counts that fit the word, because beyond that no sum of counters can tell.
- SchedulerHolds.JoinReturnsExactlyWhenReleased: is stated for fewer than 2^64 tasks, Holders and open holds together.
- SchedulerEntries.CompletedTaskWasRun: is stated for aborts that come in time; a later one may overtake the first entry, and the completion handlers are then called for a handler that never ran.
- TaskGroupHangs.AwaitReturnsExactlyWhenNoneMissed: is stated for aborts that come in time and groups of fewer than 2^64 members; for all runs `AwaitAtRest` and `AwaitIsRight` say when `await` returns and when it is right.
- A loop over a task's handlers calls those that were registered when it began; a registration on the
  same vector while the loop is running, which the code does not exclude, has no defined meaning.
- Reading the status of a task that was freed, or registering on it, has none either; the model does it all the same.
- A group's members are those for which `attach` was called when `await` compares.
- The Holder's compiler-generated copy assignment, which would copy the pointer without a hold, is not a step.
- `Promise.race`, and the error that `broadcastReject` throws when nobody listens beyond the fact that it does.
- PromiseTheorems.EarlyThenEqualsLateThen: speaks of promises that end resolved and handlers that do not throw; a late reject handler behaves as `LateCatchIsNeverCalled` says.
- What a promise handler does with other promises while it runs is taken as steps before its task.
- A device's own count of bytes taken is what it took; header fields, `Response::send` and keep-alive are not modelled.
- Datagrams.UDPSocket.DeviceWrite: works on positions of the buffer; what is read behind its end after a short count is no part of the model.
- StreamPipeline.PipedInOrder: is about one `resume` with no failing filter, read or write, and one `pipe` made before it; `pause`, `reset` and pull devices are not modelled.
- The buffer growth of native filters.
- HttpResponse.BodyDecodes: counts bytes of writes that were promised a number; what a program writes after a write that failed is not followed.
- Paths are sequences of characters with "/" as separator; URLs, the working directory and the module loader's own plumbing are not modelled.
- ModulePaths.ResolvingAgainChangesNothing: is about the root "/"; a path under a drive letter does not start with the separator, so that the code takes it for a relative name.
- File trees do not change during a search; symbolic links are not modelled.
- Listener counts are integers or Infinity; the promises that `emit` makes of its handlers' results are not modelled.
- The native `Emitter` and its `tidy`.
- The rest of `inspect`: objects, arrays, and cycles.

# Empool verification

A Dafny model of the synchronisation protocols of Empool, a thread-pool library written with pthreads and
Boost, and proofs of what these protocols promise.

The model is made of state machines over interleaved steps. A step is one access to an atomic, or one section
that runs with a mutex held; a condition variable is the set of the threads that wait on it, and a thread may
leave it by a notification, by its timeout, or for no reason at all. Each component has

- a `...Spec` module: the state, the events, and the total step function `Step` (an event that is not enabled
  changes nothing), so that `Exec(s, es)` is the state after an arbitrary schedule `es`;
- a `...Properties` module (or several): an inductive invariant and the theorems, which hold for every schedule;
- an object module: a class with the fields of the C++ class and, where another thread may come in between, the
  place at which each thread stands. Its small methods are cut where a mutex is given up and are proved to take
  exactly the step of the specification, so that the theorems apply to it; the member functions that consist of
  several steps are also given whole, with what they achieve when nobody comes in between.

The timer handler keeps its tasks as objects in a binary heap ordered by fields that change in place; a ghost list of
the steps taken ties it to the specification, which knows the queue as a set. The scheduled pool has no specification
of its own: it is a set of such handlers, and its methods are proved against what they do to each of them.

| component | files |
|---|---|
| cyclic barrier | `BarrierSpec`, `BarrierProperties`, `CyclicBarrier` |
| blocking queue | `BlockingQueueSpec`, `BlockingQueueProperties`, `BlockingQueue` |
| task and its cancellation | `TaskSpec`, `TaskProperties`, `TaskBase` |
| closeable thread | `CloseSpec`, `CloseProperties`, `CloseableThread` |
| scaling and fixed pool | `PoolSpec`, `PoolRuns`, `PoolFrames`, `PoolProperties`, `PoolTasks` and `PoolLock` (any sizes), `WorkerSums`, `FixedPoolInvariant`, `FixedPoolProperties` and `FairShutDown` (max <= core), `FairSchedules`, `ScalingPoolFailures` (core < max), `PoolSizes` (for which sizes the promises hold), `ScalingThreadPool` |
| binary heap under both priority queues | `Heap` |
| timer task handler | `TimerSpec`, `TimerProperties`, `TimerTheorems`, `SleepArithmetic`, `TimerTaskHandler` |
| scheduled pool | `RoundRobin`, `ScheduledThreadPool` |
| single-threaded pool | `PriorityOrder`, `SinglePoolSpec`, `SinglePoolProperties`, `SingleThreadPool` |

The main results:

- **Pools.** In a pool of n workers that cannot grow (max <= core == n) SHUTDOWN implies that all workers have left
  their loop for good; the n sentinels suffice, so nobody is left asleep; from any point of a shutdown SHUTDOWN can be
  reached without any timeout, the workers taking at most 9n steps; and in every infinite schedule that is fair,
  SHUTDOWN comes and every call of ShutDownNow returns. `PoolSizes` says for which sizes what holds, in both
  directions: SHUTDOWN stays reachable if and only if 1 <= core and max <= core; no task starts after ShutDownNow has
  returned if and only if max <= core or max <= 1; monitor and worker can deadlock if and only if core < max; SHUTDOWN
  is final if and only if the winner of the shutdown race has written STOP, which is so in every run if and only if
  max <= core; and fewer than core workers remain at some time if and only if 1 <= core < max.
- **Timer.** Every task is accounted for, fires by deadline no earlier than due, and keeps its period even when
  the clock goes backwards; the thread always sleeps on the least deadline; after the sentinel nothing fires. The
  deadline of the root is changed in place inside a binary heap of references, and the heap survives it.
- **Cancellation.** No wake-up is lost; a request lets at most one more body start, and exactly if the runner is past
  its check. When exactly a returned `Cancel` is not final, and when exactly it returns on a task that is not run any
  more, is characterised by a condition on the state at the call.
- **Barrier.** Arrivals per epoch are conserved; SUCCESS is told exactly to those whose epoch tripped and was not
  reset before they woke, BROKEN exactly to those that a reset overtook, and TIMEOUT after a trip exactly to those
  already out of the wait set; the counters have a closed form over whole runs.
- **Single pool.** The heap behaves as a queue or a stack under increasing stamps, and under equal stamps exactly as
  long as at most three tasks are inside; the sentinel overtakes every task of positive priority where the smallest
  goes first; `ShutDownNow` releases all its callers exactly if at most one of them sleeps when the single signal
  comes.

Where the code does not keep what its interface suggests, there is a lemma with a run that shows it, and one with the
exact condition: `TaskProperties.CancelReturnsTooEarly` (`CancelIsFinalUnlessStale`),
`ScalingPoolFailures.ShutDownCanHang` (`PoolSizes.ShutDownCanCompleteIff`), `ScalingPoolFailures.RetiringCanDeadlock`
(`PoolSizes.DeadlockIff`), `ScalingPoolFailures.ShutDownBeforeStop` (`PoolSizes.ShutDownIsFinalIff`,
`ShutDownAlwaysFinalIff`), `ScalingPoolFailures.EveryWorkerCanRetire` (`PoolSizes.CoreWorkersAreKeptIff`),
`ScalingPoolFailures.TaskAfterShutDownNow` (`PoolSizes.ShutDownNowIsLastIff`),
`SinglePoolProperties.TwoCallersHang` (`SignalReleasesAllIffOne`, `OneSignalIsEnoughIff`), `PriorityOrder.FourEqualStampsLoseTheOrder`
(`EqualStampsKeepOrderIffThree`), `BarrierProperties.TimeoutAfterTrip` (`TimeoutAfterTripIff`).

`dafny verify dfyconfig.toml` verifies the whole project.

## Model

| member | source | states |
|---|---|---|
| BarrierProperties.EpochInvariant | src/CyclicBarrier.cpp:19-91 | in every run 1 <= count <= max between sections, the arrivals of the running epoch (waiting or timed out) are max - count, and whoever sleeps belongs to the running epoch |
| BarrierProperties.RunningEpochOnlyTimesOut | src/CyclicBarrier.cpp:50-82 | nobody returns from an epoch that neither tripped nor was reset, except by TIMEOUT |
| BarrierProperties.OutcomesAreSound | src/CyclicBarrier.cpp:34-47 | SUCCESS means that the caller's epoch tripped with exactly max arrivals and was not ended by a reset; BROKEN means that a reset came after the arrival, whether the epoch had tripped before it or was abandoned by it |
| BarrierProperties.ResumeOutcome | src/CyclicBarrier.cpp:37-47 | in every run a thread that wakes goes back to sleep while its epoch runs; else it returns, with SUCCESS if and only if the epoch tripped and nobody has called Reset since the arrival, and with BROKEN if and only if somebody has, even after the trip |
| BarrierProperties.ArrivalsAreConserved | src/CyclicBarrier.cpp:19-91 | each arrival of an epoch is inside or returned once, and a tripped epoch accounts for exactly max threads |
| BarrierProperties.ArrivalsBounded | src/CyclicBarrier.cpp:19-91 | no epoch ever has more than max arrivals |
| BarrierProperties.GenerationsInClosedForm | src/CyclicBarrier.cpp:19-48 | after N arrivals without a reset the generation is N div max and the counter max - N mod max; without timeouts exactly N mod max threads wait |
| BarrierProperties.TimeoutAfterTrip | src/CyclicBarrier.cpp:69-72 | a run in which a caller gets TIMEOUT although its generation had tripped |
| BarrierProperties.TimeoutAfterTripIff | src/CyclicBarrier.cpp:67-73 | in every run an expiring wait returns TIMEOUT although the epoch tripped if and only if the thread is out of the wait set and its epoch was not abandoned; without a reset since its arrival, if and only if its saved generation has passed |
| BarrierProperties.ResetBreaksTheWaiters | src/CyclicBarrier.cpp:85-91 | a reset wakes everybody, starts an epoch without arrivals, and in no continuation does a thread that arrived before it get SUCCESS |
| CyclicBarrierObject.CyclicBarrier.Arrive | src/CyclicBarrier.cpp:22-40 | the section from the decrement to the return or the first wait is the Arrive step; the result says which |
| CyclicBarrierObject.CyclicBarrier.Resume | src/CyclicBarrier.cpp:37-47 | a turn of the wait loop is the Resume step: wait again, SUCCESS or BROKEN |
| CyclicBarrierObject.CyclicBarrier.Expire | src/CyclicBarrier.cpp:67-73 | an expired wait returns TIMEOUT and leaves the counters alone |
| BlockingQueueProperties.FirstInFirstOut | include/empool/BlockingQueue.h:32-90 | for any schedule of producers and consumers, the items delivered followed by the items inside are the initial items followed by those of its pushes, in order; Front shows what the next pop takes |
| BlockingQueueProperties.NobodyOversleeps | include/empool/BlockingQueue.h:32-71 | a consumer sleeps only on an empty queue, and a scheduled consumer leaves with the head of a non-empty one |
| BlockingQueueObject.BlockingQueue.Push | include/empool/BlockingQueue.h:32-37 | the item goes to the end, and all waiters are woken exactly if the queue was empty |
| BlockingQueueObject.BlockingQueue.Attempt | include/empool/BlockingQueue.h:40-49 | holding the mutex, a consumer waits on an empty queue, and otherwise gets the head, which Front leaves in place |
| BlockingQueueObject.BlockingQueue.Begin | include/empool/BlockingQueue.h:40-90 | a call up to its first wait or its return: asleep on an empty queue with the queue untouched; otherwise it has the head, which is gone from the queue unless the call is Front |
| BlockingQueueObject.BlockingQueue.Resume | include/empool/BlockingQueue.h:40-90 | the same from a wake-up to the next wait or the return, whichever operation waits |
| BlockingQueueObject.BlockingQueue.Expire | include/empool/BlockingQueue.h:62-67 | a timed-out PopTimeWait returns false and takes nothing |
| TaskProperties.NoLostWakeUp | src/TaskBase.cpp:40-69 | a canceller asleep on a stopped task has the runner's broadcast immediately ahead, and that broadcast wakes everybody |
| TaskProperties.RunnerReleasesSleepers | src/TaskBase.cpp:40-59 | every step of the runner brings it nearer to the end of Run, where the task is stopped and nobody sleeps |
| TaskProperties.SleepersOutsideRun | src/TaskBase.cpp:61-69 | outside Run, a canceller sleeps only on a task that has never run |
| TaskProperties.CancelReturnsUnaidedIff | src/TaskBase.cpp:61-69 | from any state: without a further step of the runner a call of Cancel can come to its return if and only if the task is in a stop state at the call |
| TaskProperties.CancelOutsideRun | src/TaskBase.cpp:61-69 | in every run, for a task outside Run: it can if and only if the state is not INIT any more, so exactly on a task never run Cancel is stuck |
| TaskProperties.AtMostOneLateBody | src/TaskBase.cpp:40-49 | after a request at most one body starts, and exactly if the runner was already past its check |
| TaskProperties.CancelledIsAbsorbing | src/TaskBase.cpp:40-54 | CANCELLED implies a request, and survives every later Run without another body |
| TaskProperties.NoFurtherBody | src/TaskBase.cpp:108-114 | once requested with the runner not past its check, no schedule starts a body |
| TaskProperties.WhenCancelReturns | src/TaskBase.cpp:61-69 | when Cancel returns, a body can still start if and only if the runner of a task that had finished before is past its check |
| TaskProperties.CancelIsFinalUnlessStale | src/TaskBase.cpp:61-69 | a call of Cancel can return too early if and only if, at the call, the task shows FINISHED while its runner is past the check |
| TaskProperties.CancelReturnsTooEarly | src/TaskBase.cpp:61-69 | a run of a periodic task in which Cancel returns and then a body starts |
| TaskProperties.SpuriousWakeUpChangesNothing | src/TaskBase.cpp:66-68 | a canceller woken for no reason tests again and, on a task that has not stopped, sleeps as before |
| TaskBaseObject.TaskBase.CheckBeforeRun | src/TaskBase.cpp:44-44 | the check before the body: go on exactly if no cancel was requested |
| TaskBaseObject.TaskBase.EndBody | src/TaskBase.cpp:47-54 | the body completes, or throws at a check of its own after a request |
| TaskBaseObject.TaskBase.Run | src/TaskBase.cpp:40-59 | run with nobody in between: one body and FINISHED, or none and CANCELLED, with all cancellers released |
| TaskBaseObject.TaskBase.AwaitStop | src/TaskBase.cpp:66-68 | return in a stop state, sleep otherwise |
| TaskBaseObject.TaskBase.Cancel | src/TaskBase.cpp:61-69 | the whole call: the request is stored, and the caller returns at once exactly from a task in a stop state |
| CloseProperties.NoLostWakeUp | src/CloseableThread.cpp:69-86 | although FINISHED is written before the mutex is taken: a closer asleep, or about to sleep, on a finished thread has the broadcast still ahead |
| CloseProperties.CloseReturnsAfterTheAction | src/CloseableThread.cpp:168-191 | the winning closer returns only after the finish action ran once; at most one thread ever waits, and a second close changes nothing |
| CloseProperties.CloseTerminates | src/CloseableThread.cpp:77-86 | the thread always gets nearer to its end, a closer delays it by one step at most, and once it is gone the closer's next step returns |
| CloseProperties.AsyncCloseTurnsAway | src/CloseableThread.cpp:69-74 | from an AsyncClose on, in no continuation does a thread that has not entered its work function enter it, and one that is inside leaves it at its next check |
| CloseProperties.SpuriousWakeUpChangesNothing | src/CloseableThread.cpp:82-84 | a closer woken for no reason tests again and, short of FINISHED, sleeps as before |
| CloseableThreadObject.CloseableThread.CompareExchange | src/CloseableThread.cpp:79-80 | exactly the first caller wins the flag |
| CloseableThreadObject.CloseableThread.Close | src/CloseableThread.cpp:77-86 | the whole call: it returns at once exactly if a close was requested before or the thread has finished, and otherwise leaves the caller asleep |
| CloseableThreadObject.CloseableThread.TestFinished | src/CloseableThread.cpp:82-84 | the wait loop's test under the mutex: done, or hold the mutex and go to sleep |
| CloseableThreadObject.CloseableThread.CheckIsRequestClose | src/CloseableThread.cpp:116-122 | the work function is entered exactly if no close was requested |
| CloseableThreadObject.CloseableThread.ThreadFunction | src/CloseableThread.cpp:168-191 | the thread's whole life: the work function is entered exactly if no close was requested, the finish action runs once, the thread ends FINISHED and no closer is left asleep |
| PoolProperties.MapBookkeeping | src/ScalingThreadPool.cpp:151-191 | for all sizes and schedules: the map never exceeds max(core, max); an entry leaves it only after its worker reported and ended; reported entries await reaping; the stop counter is the number of counted entries |
| PoolProperties.DecisionMeansAllCounted | src/ScalingThreadPool.cpp:268-278 | SHUTDOWN is decided only when every entry of the map has been counted |
| PoolProperties.RetiredEntryBlocksShutDown | src/ScalingThreadPool.cpp:258-283 | a retired worker left in the map when the monitor exits keeps SHUTDOWN out of reach for ever |
| PoolProperties.ExecKeepsInv | src/ScalingThreadPool.cpp:206-283 | the bookkeeping invariant holds along every schedule, from any state that has it |
| PoolLock.EverybodyIsTold | src/ScalingThreadPool.cpp:117-130 | for all sizes and schedules: the winner and the monitor never hold the map together; once sentinels are pushed every worker of the map has its close flag, and the sentinels pushed and still due are as many as the map has entries |
| PoolLock.MapIsLocked | src/ScalingThreadPool.cpp:118-130 | no step of anybody changes the map or the reaping list while the winner holds the mutex |
| PoolProperties.SpuriousWorker | include/empool/BlockingQueue.h:62-67 | a worker woken for no reason sleeps as before if the queue is still empty |
| PoolProperties.SpuriousMonitor | src/ScalingThreadPool.cpp:213-217 | so does the monitor with at most 1024 tasks waiting or a full map, and nobody to reap |
| PoolProperties.SpuriousCaller | src/ScalingThreadPool.cpp:102-105 | so does a caller of ShutDownNow short of SHUTDOWN |
| PoolTasks.TasksAreConserved | src/ScalingThreadPool.cpp:241-255 | every task that the schedule submits before a shutdown is requested is still with its submitter, queued, in one worker's hands, or was handed to Run, with its multiplicity, and tasks are taken in the order of the pushes |
| FixedPoolInvariant.ReachableInv | src/ScalingThreadPool.cpp:93-134 | every reachable state of a pool with max <= core satisfies the invariant over all workers' and callers' positions |
| FixedPoolProperties.MapNeverChanges | src/FixedThreadPool.cpp:5-9 | with max <= core == n the map keeps exactly n entries, no worker retires, and none is counted twice |
| FixedPoolProperties.ShutDownIsQuiet | src/ScalingThreadPool.cpp:258-283 | in SHUTDOWN all n workers are out of their loops, and in no continuation does one start a task or leave SHUTDOWN |
| FixedPoolProperties.ShutDownNowIsFinal | src/ScalingThreadPool.cpp:93-106 | the same from the return of ShutDownNow on |
| FixedPoolProperties.SentinelsSuffice | src/ScalingThreadPool.cpp:117-130 | once the sentinels are pushed there is an item for every worker that may still pop, so no worker sleeps then or later |
| FixedPoolProperties.AtMostOneMorePop | src/WorkerThread.cpp:99-135 | after its AsyncClose a worker pops at most one more item, and none unless it was about to |
| FixedPoolProperties.WorkersRunOut | src/WorkerThread.cpp:99-135 | after the last sentinel the workers together take at most 9n steps, whatever is scheduled in between |
| FixedPoolProperties.WinnerProgress | src/ScalingThreadPool.cpp:109-142 | the winner of the shutdown race can move on, or the monitor that holds the mutex can; each step brings the shutdown nearer |
| FixedPoolProperties.MonitorLetsGo | src/ScalingThreadPool.cpp:206-238 | the monitor's steps lead it to release the thread map without touching workers or shutdown |
| FixedPoolProperties.WorkerProgress | src/ScalingThreadPool.cpp:258-283 | short of SHUTDOWN some worker has not ended, and it or the monitor it waits for can move |
| FixedPoolProperties.Complete | src/ScalingThreadPool.cpp:109-134 | from any point of a shutdown a schedule without timeouts reaches SHUTDOWN |
| FixedPoolProperties.ShutDownCanComplete | src/ScalingThreadPool.cpp:109-134 | once requested, SHUTDOWN stays reachable in every run even if no timed wait expires |
| FixedPoolProperties.CallersGetOut | src/ScalingThreadPool.cpp:278-281 | in SHUTDOWN every caller asleep has a broadcast still ahead; the winner goes on to the wait at its next step, or it or the monitor in its way can take a step of the work before that; every other caller returns at its next step |
| FairSchedules.FairSchedulesExist | src/ScalingThreadPool.cpp:109-283 | from every state of a pool of any sizes there is an infinite schedule in which no thread that can move again and again is passed over for ever |
| FairShutDown.FairScheduleShutsDown | src/ScalingThreadPool.cpp:109-134 | with max <= core and 1 <= core, from any point of a shutdown: every infinite schedule that passes over no thread for ever that can move again and again reaches SHUTDOWN |
| FairShutDown.EveryCallReturns | src/ScalingThreadPool.cpp:93-106 | in every such schedule every call of ShutDown and ShutDownNow returns, from whatever point of it, and the pool is in SHUTDOWN |
| FixedPoolProperties.EmptyPoolNeverShutsDown | src/ScalingThreadPool.cpp:258-283 | with no threads SHUTDOWN is never reached, so ShutDownNow never returns |
| ScalingPoolFailures.ShutDownCanHang | src/ScalingThreadPool.cpp:206-236 | for all core < max: a run with a shutdown request after which no schedule reaches SHUTDOWN |
| ScalingPoolFailures.DeadlockIsForever | src/ScalingThreadPool.cpp:185-189 | monitor and retiring worker, once they wait for each other, do so in every continuation |
| ScalingPoolFailures.RetiringCanDeadlock | src/ScalingThreadPool.cpp:229-236 | for all core < max: a run that reaches this deadlock without any call of ShutDown |
| ScalingPoolFailures.ShutDownBeforeStop | src/ScalingThreadPool.cpp:112-115 | for all core < max: a run in which all workers retire, count themselves and write SHUTDOWN before the winner writes STOP over it |
| ScalingPoolFailures.EveryWorkerCanRetire | src/WorkerThread.cpp:112-120 | for all core < max: a run without a shutdown request that empties the map, core workers included |
| ScalingPoolFailures.TaskAfterShutDownNow | src/ScalingThreadPool.cpp:223-226 | for all core < max with max > 1: a run in which ShutDownNow has returned and the monitor, which was about to add a worker, adds it; it was never told to close and starts a task |
| PoolSizes.ShutDownCanCompleteIff | src/ScalingThreadPool.cpp:258-283 | for all sizes: after every request SHUTDOWN stays reachable if and only if 1 <= core and max <= core |
| PoolSizes.DeadlockIff | src/ScalingThreadPool.cpp:229-236 | for all sizes: monitor and retiring worker can come to wait for each other if and only if core < max |
| PoolSizes.ShutDownIsFinalIff | src/ScalingThreadPool.cpp:111-115 | for all sizes and runs: SHUTDOWN survives every continuation if and only if the winner is past its write of STOP |
| PoolSizes.ShutDownAlwaysFinalIff | src/ScalingThreadPool.cpp:275-278 | for all sizes: SHUTDOWN is final in every run if and only if max <= core |
| PoolSizes.ShutDownNowIsLastIff | src/ScalingThreadPool.cpp:93-106 | for all sizes: in every run no continuation starts a task after a return of ShutDownNow, if and only if max <= core or max <= 1 |
| PoolSizes.CoreWorkersAreKeptIff | src/WorkerThread.cpp:112-120 | for all sizes: the map never has fewer than core entries if and only if core is 0 or max <= core |
| ScalingThreadPoolObject.ScalingThreadPool.CloseWorkers | src/ScalingThreadPool.cpp:119-123 | the whole loop: the close flag of exactly the map's workers is set, nothing else changes; a run of the specification |
| ScalingThreadPoolObject.ScalingThreadPool.PushSentinels | src/ScalingThreadPool.cpp:124-129 | the whole loop: the queue grows by one sentinel per entry and no worker sleeps on it; a run of the specification |
| ScalingThreadPoolObject.ScalingThreadPool.Reap | src/ScalingThreadPool.cpp:229-236 | the whole loop: exactly the reported workers leave the map and the list is empty; a run of the specification |
| ScalingThreadPoolObject.ScalingThreadPool.JudgeFunc | src/ScalingThreadPool.cpp:198-203 | with at most 1024 tasks waiting or a full map there is something to do exactly if somebody is to be reaped; with more tasks and room there always is |
| ScalingThreadPoolObject.ScalingThreadPool.DoAddTask | src/ScalingThreadPool.cpp:241-255 | the whole call: refused exactly after a shutdown request or without a task, and then nothing changes; otherwise the task is last in the queue, no worker sleeps if it was empty, and the monitor does not sleep if it has something to do |
| ScalingThreadPoolObject.ScalingThreadPool.NotifyWhenThreadsStop | src/ScalingThreadPool.cpp:258-283 | the whole finish action: without a request the worker is on the reaping list and the monitor awake; during a shutdown it is counted, and the one that completes the count leaves SHUTDOWN and no caller asleep |
| ScalingThreadPoolObject.ScalingThreadPool.StopEverything | src/ScalingThreadPool.cpp:115-132 | the winner's whole work: STOP, exactly the map's workers told to close, one sentinel for each at the end of the queue, the monitor closed and awake with a 0 in the reaping list |
| ScalingThreadPoolObject.ScalingThreadPool.ShutDown | src/ScalingThreadPool.cpp:93-134 | the whole call: only the first one does that work; ShutDown returns at once, ShutDownNow exactly in SHUTDOWN, and sleeps otherwise |
| ScalingThreadPoolObject.ScalingThreadPool.ProcessTask | src/WorkerThread.cpp:99-135 | a turn of the work loop: a worker told to close leaves; on an empty queue it sleeps; else the head is taken, and run unless it is a sentinel, which ends the loop |
| ScalingThreadPoolObject.ScalingThreadPool.HandleTimeout | src/WorkerThread.cpp:112-121 | a worker whose wait expired leaves exactly if the map holds more than core workers |
| ScalingThreadPoolObject.ScalingThreadPool.HandleWorkerThread | src/ScalingThreadPool.cpp:206-238 | a turn of the monitor once the reported workers have ended (it would wait for them): exit if closed, sleep if there is nothing to do, else add one worker exactly if more than 1024 tasks wait and the map is below max, and erase exactly the reported workers |
| Heap.RootIsMin | src/TimerTaskQueue.cpp:13-17 | the root of a heap has the least key |
| Heap.Push | src/SingleThreadPool.cpp:71-71 | the loop of the library's push computes Pushed, with a comparator that may read the tasks it compares |
| Heap.Pop | src/SingleThreadPool.cpp:88-88 | the loops of the library's pop, down to a leaf and up again, compute Popped |
| Heap.PushedIsHeap | src/SingleThreadPool.cpp:71-71 | for every comparator that agrees with a key, strict or not: the result is a heap with one element more |
| Heap.PoppedIsHeap | src/SingleThreadPool.cpp:88-88 | the root is taken even if its key has changed meanwhile; the result is a heap of the others |
| Heap.RekeyedRoot | src/TimerTaskHandler.cpp:89-90 | changing the root's key in place spoils no edge but those under the root, provided the root is in the heap once |
| TimerProperties.ReachableInv | src/TimerTaskHandler.cpp:51-114 | the invariant over every task's place and history holds in every run |
| TimerTheorems.TasksAreConserved | src/TimerTaskHandler.cpp:128-187 | an accepted task is pending, queued or removed exactly once, is never accepted twice, and a one-shot task runs at most one body |
| TimerTheorems.PeriodicSpacing | src/TimerTaskHandler.cpp:84-91 | for any clock readings the i-th firing of a cycle task is at a reading not before first deadline + i intervals; so at readings up to t it fires at most 1 + (t - first) div interval times |
| TimerTheorems.NoEarlyBody | src/TimerTaskHandler.cpp:73-112 | a body starts only after a firing at a reading not before the deadline, and past the check of Run; a firing due to a cancel starts none |
| TimerTheorems.NoOversleep | src/TimerTaskHandler.cpp:97-101 | the thread asleep sleeps on the least deadline in the queue, or the queue is empty |
| TimerTheorems.AtMostTheClearedBody | src/TaskBase.cpp:40-49 | after a cancel request a task's bodies and the body cleared to start keep their sum in every continuation: no other body ever starts |
| TimerTheorems.LateBodyIffCleared | src/TaskBase.cpp:44-47 | after a cancel request some continuation starts a body if and only if the thread is past the check of Run with this task |
| TimerTheorems.CheckTurnsDown | src/TaskBase.cpp:44-54 | the check clears a task exactly if no cancel is requested, and cancels it otherwise; a task handed to Run because of a cancel is always turned down |
| TimerTheorems.CancelledIsDropped | src/TimerTaskHandler.cpp:75-83 | a task with a cancel request leaves the queue for good when it comes up; a cancelled one is not handed to Run |
| TimerTheorems.NothingAfterTheSentinel | src/TimerTaskHandler.cpp:204-220 | from the sentinel's push on no user task fires or leaves the queue, and only the task already in hand may start its body, once |
| TimerTheorems.ThreadEnds | src/TimerTaskHandler.cpp:51-114 | from then on the thread is never asleep or stuck, and leaves its loop within six steps of its own |
| TimerTheorems.EndsOnlyByShutDown | src/TimerTaskHandler.cpp:51-114 | in every run the thread has left its loop only if a close was requested or the sentinel was taken from the queue |
| TimerTheorems.LoopGoesOn | src/TimerTaskHandler.cpp:51-114 | before the sentinel's push the thread is in its loop and never stuck: awake it has a step, a queued task is polled, and from a wake-up, a body's end or a task turned down it is back at the top |
| SleepArithmetic.TimeWaitDeadline | src/ConditionVariable.cpp:42-57 | the single carry yields exactly the normalized form of now + delay, without overflow for 64-bit delays |
| SleepArithmetic.GetCurrentTime | src/TimerTaskHandler.cpp:12-19 | the reading rounded down to milliseconds |
| SleepArithmetic.WaitEndBounds | src/TimerTaskHandler.cpp:73-100 | the wait ends before the deadline if and only if the clock was set back between the two readings; otherwise it overshoots by less than 1 ms and the time between them |
| SleepArithmetic.DueIff | src/TimerTaskHandler.cpp:84-84 | the millisecond reading reaches a deadline exactly when the instant does |
| SleepArithmetic.ExpiredWaitFindsItsHeadDue | src/TimerTaskHandler.cpp:59-101 | in every run, whatever is pushed or cancelled meanwhile: a wait that expires by itself is followed by a poll that finds its head due, so the thread does not go back to sleep |
| TimerTaskHandlerObject.ComparesDeadlines | src/TimerTaskQueue.cpp:94-98 | the comparator orders the queue by the deadlines of this moment |
| TimerTaskHandlerObject.TimerTaskQueue.GetMin | src/TimerTaskQueue.cpp:13-17 | a task whose deadline is least in the whole queue |
| TimerTaskHandlerObject.TimerTaskQueue.PopMin | src/TimerTaskQueue.cpp:19-25 | the root goes, the rest is a heap, even if the root's deadline was changed in place |
| TimerTaskHandlerObject.TimerTaskQueue.PushTask | src/TimerTaskQueue.cpp:38-45 | one task more, still a heap, and the timer thread is not left waiting |
| TimerTaskHandlerObject.TimerTaskQueue.PopMinAndPush | src/TimerTaskQueue.cpp:27-34 | after the root's deadline was changed in place: a heap of the same tasks |
| TimerTaskHandlerObject.TimerTaskQueue.RekeyRoot | src/TimerTaskHandler.cpp:89-90 | the root gets a new deadline while it is in the heap, and a heap of the same tasks results |
| TimerTaskHandlerObject.TimerTaskHandler.Acquire | src/TimerTaskHandler.cpp:59-69 | taking the mutex: the thread polls exactly if no close was requested and the queue is not empty, waits exactly on an empty queue without a close, and leaves its loop exactly after a close |
| TimerTaskHandlerObject.TimerTaskHandler.HeadIsMin | src/TimerTaskQueue.cpp:13-17 | the root of the binary heap is a task of least deadline of the specification's queue, in every run |
| TimerTaskHandlerObject.TimerTaskHandler.Poll | src/TimerTaskHandler.cpp:71-101 | the section under the mutex: on a task of least deadline, dropped if cancelled, removed and fired on a cancel request or when due without an interval, fired and due again one interval after this reading if periodic, waited for otherwise; no other task is touched, and it is a Poll of the specification |
| TimerTaskHandlerObject.TimerTaskHandler.Rearm | src/TimerTaskHandler.cpp:89-90 | the root gets its next deadline in place; this is the specification's Poll of a periodic task |
| TimerTaskHandlerObject.TimerTaskHandler.Check | src/TaskBase.cpp:44-54 | the check of Run is the specification's Check: the body is cleared exactly if no cancel was requested, and a task turned down is CANCELLED |
| TimerTaskHandlerObject.TimerTaskHandler.ThreadTurn | src/TimerTaskHandler.cpp:51-114 | a whole turn of the loop: it ends the loop exactly after a close or on the sentinel, waits on an empty queue or a head that is not due, and otherwise fires the head and leaves it FINISHED or, on a cancel request, CANCELLED |
| TimerTaskHandlerObject.TimerTaskHandler.PushPending | src/TimerTaskHandler.cpp:145-147 | the second half of an add is the specification's Push of a task that is not in the queue; the thread is not left waiting |
| TimerTaskHandlerObject.TimerTaskHandler.AddCronTimerTask | src/TimerTaskHandler.cpp:128-149 | accepted exactly if not closed and without a deadline, in which case it was not queued and now is, due at now + delay; the specification's steps Create, AddCron and Push unless that deadline is 0 |
| TimerTaskHandlerObject.TimerTaskHandler.AddCycleTimerTask | src/TimerTaskHandler.cpp:157-187 | the same for a periodic task, due at once or after one interval |
| TimerTaskHandlerObject.TimerTaskHandler.PushSentinel | src/TimerTaskHandler.cpp:211-213 | the specification's PushSentinel: a fresh task with deadline 0 is queued and the thread is not left waiting |
| TimerTaskHandlerObject.TimerTaskHandler.ShutDown | src/TimerTaskHandler.cpp:204-220 | the first call is the specification's ShutDown, PushSentinel and SetClose: one sentinel queued, the thread not left waiting and told to close; later calls change nothing |
| RoundRobin.DealtEvenly | src/ScheduledThreadPool.cpp:161-161 | after m dispatches to k handlers each has m div k or m div k + 1, the first m mod k handlers having the extra one |
| ScheduledThreadPoolObject.ScheduledThreadPool.constructor | src/ScheduledThreadPool.cpp:12-25 | the given number of fresh, empty, separate handlers |
| ScheduledThreadPoolObject.ScheduledThreadPool.NextHandler | src/ScheduledThreadPool.cpp:161-161 | handlers are chosen in turn |
| ScheduledThreadPoolObject.ScheduledThreadPool.DealtEvenlySoFar | src/ScheduledThreadPool.cpp:187-187 | at every moment the pool's own dispatches are even |
| ScheduledThreadPoolObject.ScheduledThreadPool.AddCronTimerTask | src/ScheduledThreadPool.cpp:150-172 | refused without taking a turn if shut down or null; otherwise exactly the next handler may queue it; no task is ever in two handlers |
| ScheduledThreadPoolObject.ScheduledThreadPool.AddCycleTimerTask | src/ScheduledThreadPool.cpp:175-198 | the same for a periodic task |
| ScheduledThreadPoolObject.ScheduledThreadPool.PollHandler | src/TimerTaskHandler.cpp:71-101 | a handler that moves a deadline in place takes its specification's Poll and disturbs no other handler |
| ScheduledThreadPoolObject.ScheduledThreadPool.ShutDownAll | src/ScheduledThreadPool.cpp:47-59 | every handler is shut down and got exactly one sentinel |
| ScheduledThreadPoolObject.ScheduledThreadPool.ShutDownHelper | src/ScheduledThreadPool.cpp:40-63 | the first call shuts every handler down and ends in SHUTDOWN, later calls change nothing |
| PriorityOrder.ComparatorsAgree | src/SingleThreadPool.cpp:45-53 | the strict comparator and its negation are both valid heap orders, for ascending and for descending priority |
| PriorityOrder.RootIsFirst | src/SingleThreadPool.cpp:87-87 | the top is a task of least priority in FIFO and PRIORITY mode, of largest in LIFO mode |
| PriorityOrder.HeapIsQueue | src/SingleThreadPool.cpp:66-90 | with increasing stamps the strict heap allows exactly the histories of a plain queue |
| PriorityOrder.HeapIsStack | src/SingleThreadPool.cpp:66-90 | with increasing stamps the non-strict heap allows exactly the histories of a stack |
| PriorityOrder.ArrayIsHeap | src/SingleThreadPool.cpp:66-90 | whatever history the binary heap allows, every pop took a first task of what was inside |
| PriorityOrder.DrainOfPushes | src/SingleThreadPool.cpp:83-90 | tasks pushed one after the other and then drained come out sorted, and in the order of arrival if each stamp ranks strictly behind the one before |
| PriorityOrder.ThreeInsideKeepOrder | include/empool/SingleThreadPool.h:217-221 | with stamps that do not decrease, ties included, the binary heap is a queue or a stack as long as at most three tasks are inside |
| PriorityOrder.FourEqualStampsLoseTheOrder | include/empool/SingleThreadPool.h:217-221 | four tasks with one stamp: a history of the binary heap that is neither a queue's nor a stack's |
| PriorityOrder.EqualStampsKeepOrderIffThree | include/empool/SingleThreadPool.h:217-221 | under stamps that do not decrease, every history with at most m tasks inside keeps the intended order if and only if m <= 3 |
| SinglePoolProperties.ReachableInv | src/SingleThreadPool.cpp:57-165 | the invariant over queue, tasks, shutdown and callers holds in every run |
| SinglePoolProperties.QueueOrStack | src/SingleThreadPool.cpp:66-90 | in every run each pop takes a first task, and with increasing stamps the pool is a queue or a stack |
| SinglePoolProperties.TasksAreConserved | src/SingleThreadPool.cpp:57-90 | every task that the schedule adds before a shutdown is requested is on its way in, queued or popped, with its multiplicity; the sentinel is the only task besides |
| SinglePoolProperties.AtMostOneMorePop | src/SingleThreadPool.cpp:92-108 | after the close flag at most one more task is popped, none unless the consumer is inside GetTask, in any continuation |
| SinglePoolProperties.ShutDownNowIsFinal | src/SingleThreadPool.cpp:130-141 | when ShutDownNow returns the consumer is out of its loop and no task is popped in any continuation |
| SinglePoolProperties.ConsumerNeverOversleeps | src/SingleThreadPool.cpp:66-90 | the consumer sleeps only on an empty queue, and never once the sentinel is pushed |
| SinglePoolProperties.ConsumerReachesItsEnd | src/SingleThreadPool.cpp:144-165 | after the sentinel the consumer can always move, each of its steps brings it nearer to its end and nobody else takes it back |
| SinglePoolProperties.SentinelOvertakesAll | src/SingleThreadPool.cpp:144-159 | in the modes FIFO and PRIORITY with positive priorities, after the sentinel's push no user task is popped in any continuation |
| SinglePoolProperties.SignalReleasesAllIffOne | src/SingleThreadPool.cpp:161-165 | the one signal lets every sleeping caller of ShutDownNow out if and only if at most one sleeps |
| SinglePoolProperties.NoSecondSignal | src/SingleThreadPool.cpp:161-165 | a caller passed over sleeps on in every continuation without a spurious wake-up |
| SinglePoolProperties.OneCallerIsLetOut | src/SingleThreadPool.cpp:130-141 | with one caller of ShutDownNow nobody is left asleep |
| SinglePoolProperties.TwoCallersHang | src/SingleThreadPool.cpp:161-165 | a run in which two callers sleep and the second is never woken |
| SinglePoolProperties.OneSignalIsEnoughIff | src/SingleThreadPool.cpp:161-165 | in every run with at most k callers of ShutDownNow nobody is left asleep when the thread is gone, if and only if k <= 1 |
| SinglePoolProperties.SpuriousConsumer | src/SingleThreadPool.cpp:83-86 | the consumer woken for no reason sleeps as before if there is still no task |
| SinglePoolProperties.SpuriousCaller | src/SingleThreadPool.cpp:136-140 | so does a caller of ShutDownNow short of SHUTDOWN |
| SingleThreadPoolObject.SingleThreadPool.DoAddTask | src/SingleThreadPool.cpp:57-64 | a task is admitted exactly if no shutdown was requested, and then it is on its way into the queue; refused it changes nothing |
| SingleThreadPoolObject.SingleThreadPool.PushTask | src/SingleThreadPool.cpp:66-74 | the binary heap of the run mode gains the task, and a consumer asleep on an empty queue is woken |
| SingleThreadPoolObject.SingleThreadPool.AddTask | src/SingleThreadPool.cpp:57-74 | the whole call: an admitted task is in the queue and a consumer that waited for one is awake; a refused one changes nothing |
| SingleThreadPoolObject.SingleThreadPool.PopHeap | src/SingleThreadPool.cpp:87-88 | a first task of the run mode's order leaves the binary heap |
| SingleThreadPoolObject.SingleThreadPool.GetTask | src/SingleThreadPool.cpp:83-90 | waits exactly on an empty queue, and otherwise is the specification's pop of a first task |
| SingleThreadPoolObject.SingleThreadPool.CheckFunc | src/SingleThreadPool.cpp:97-97 | the loop goes on exactly if no close was requested |
| SingleThreadPoolObject.SingleThreadPool.ProcessTask | src/SingleThreadPool.cpp:92-108 | a turn of the work loop: leave if told to close, sleep on an empty queue, else take a first task and go round again, or leave on the sentinel |
| SingleThreadPoolObject.SingleThreadPool.ShutDown | src/SingleThreadPool.cpp:144-159 | the whole call: the first one leaves STOP, the thread told to close, one sentinel more in the queue and the consumer awake if it waited for a task; a later one changes nothing of this |
| SingleThreadPoolObject.SingleThreadPool.NotifyWhenThreadStop | src/SingleThreadPool.cpp:161-165 | the whole finish action: SHUTDOWN, the thread gone, and of the sleeping callers exactly one woken |
| SingleThreadPoolObject.SingleThreadPool.AwaitShutDown | src/SingleThreadPool.cpp:136-140 | ShutDown returns; ShutDownNow returns exactly in SHUTDOWN and sleeps otherwise |

## Left out

- Memory and atomics: interleavings are sequentially consistent, and `compare_exchange_weak` does not fail spuriously. The unlocked read of the map's size in `NotifyWhenThreadsStop` is one step.
- Integer widths: task, generation and dispatch counters and the 64-bit times do not wrap around, except that `SleepArithmetic.TimeWaitDeadline` bounds its seconds.
- Threads: creating a thread and entering it in the pool's map is one step, thread ids are fresh, and a constructor has completed before its object is used. Creation retries, `System.cpp`, `Thread.cpp`, `Mutex.cpp`, sleeps and console output are foreign calls.
- Tasks: a task throws nothing but the cancel exception; in the pools the body of a task is opaque, and `Run` may skip it for a cancelled task.
- TimerSpec: testing that a task has no deadline and setting one is a single step per task, so two threads that add the same task at once are not modelled; in its runs no user task gets the deadline 0, which is how the code recognises a task that was never added. What the methods of TimerTaskHandlerObject do with such a deadline is in their contracts.
- ScheduledThreadPoolObject.ScheduledThreadPool.AddCronTimerTask: requires at least one handler (and AddCycleTimerTask likewise); with none the code computes a remainder by zero.
- The handler's copy of the sentinel that gets a deadline and is thrown away (src/TimerTaskHandler.cpp:211-212): it is never queued.
- TimerSpec: a handler is shut down by one caller; its later calls, which change nothing, are in TimerTaskHandlerObject.
- Heap: `push_heap` and `pop_heap` are modelled as libstdc++ has them (pop moves the hole down to a leaf and the last element up from there); another library may order equal keys differently. In SinglePoolSpec any first task may be taken; what the binary heap does with equal stamps is in PriorityOrder.
- FairShutDown.EveryCallReturns: assumes that a thread which can take a mutex again and again gets it some time; POSIX does not promise that of its mutexes.
- `ShutDownNow` of the timer handler beyond `ShutDown`: it waits in `CloseableThread::Close`, which is modelled on its own.
- `FixedThreadPool` only forwards to a scaling pool with core == max.
- `NoBlockingTaskQueue`, `FutureTask` and `FunctorFutureTask`, `ThreadPoolManager`, the templates that wrap functors as tasks, `Clear` of the timer queue and the examples.

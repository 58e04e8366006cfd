# NeXosim: a verified model of the runtime

NeXosim is a discrete-event simulator on top of its own asynchronous runtime. This
project models the parts of it whose correctness is hard to see, and proves what
they promise for every input, every interleaving and every run.

Check the whole project with `dafny verify dfyconfig.toml`.

## What is modelled

Lock-free protocols are step relations: every access to a shared word, every critical
section and every access to a protected cell is one step, and a theorem speaks about
every finite run of any number of participants. Assertions, `unwrap`s and
`unreachable!`s on the state of these protocols raise a `fault` flag, so that "no fault"
is a theorem; those on poisoned locks, joined threads, arguments of constructors and
exhausted counters are left out. Atomics are sequentially consistent. History fields
record what happened (messages accepted and popped, tasks scheduled and run, values
written, times of cancellations) so that a statement can refer to it. Sequential code is
written as classes and methods with loops.

- `TaskLifecycle`, `TaskWord`: a task shared by its Runnable, Promise, CancelToken and
  Wakers. The protocol works on a record; `TaskWord` shows that the packed 64-bit word
  with its wrap-around additions and masks goes through the same values.
- `QueueGeometry`, `MpscQueue`, `CausalMessaging`: the bounded mailbox queue for any
  capacity, and the causal order of messages in networks of actors that use it.
- `TaskSet`: the Treiber stack of scheduled sub-tasks with its notification countdown.
- `WorkerPool`, `WorkerPoolInvariant`, `WorkerPoolProgress`: the executor: fast slots, local
  queues, injector, active-worker bits, search count, parking, and the main thread that waits
  for idleness; what holds in every state, and what a worker or the main thread gets done.
- `EventQueue`, `BinaryHeap`, `SchedulerStep`, `SeqFutures`, `EventHistory`, `Simulation`,
  `QueuePersistence`: the scheduler queue and the array heap under it, one step of the
  scheduler, what becomes of an event from step to step, `step_until`, and saving the
  queue. Other threads schedule, inject and cancel at every moment at which no lock stops
  them; the requests that arrive just before the final write of `step_until` are an
  argument of it.
- `Ticker`: the periodic ticker.
- `IndexedHeap`, `IndexedPriorityQueue`, `KeyRegistry`: a binary heap cross-indexed with a
  slab and a free list, and the registry of expiring event keys on top of it.
- `SharedCell`, `SyncCell`: the double-buffered cell and the seqlock.
- `Words`, `FindBit`, `ShuffledStealers`: bit selection by a tree of adders and a binary
  search, for any word size, and the cyclic order in which workers try to steal.
- `Arithmetic`, `Wrappers`: division facts, and the optional value.

## Where the code gives less than its documentation

- `step_until` says that nothing is left at or before the target. The final time is
  written without the scheduler lock (nexosim/src/simulation.rs:661-666), and an event
  scheduled just before that write can be overtaken. `Simulation.OvertakenEvent` is such a
  run: at time 0, with target 10, an event for time 5 is still queued after Ok.
  `Simulation.Simulation.StepUntil` states the exact condition on the requests of that
  window: nothing is left if and only if none of them is accepted with a deadline at or
  before the target. If a step reaches the target itself, nothing is left in any case.
  The next step then takes the time back to 5 (`Simulation.TimeGoesBack`):
  `Simulation.Simulation.StepToNext` states that, when no other thread acts, a step moves
  the time forward if and only if no live item lies at or before it.
- `step_until` also says that it processes the events injected up to the target
  (nexosim/src/simulation.rs:333-337). The injector queue is served by steps only.
  `Simulation.WaitingInjection` is a run that ends with the injected item still waiting.
  `Simulation.Simulation.StepUntil` states when it is served, by what is known before the
  call: if the next tick or some queued item that nobody can cancel lies at or before the
  target; and, when no other thread acts, if and only if the next tick or a live item does.
- `save_queue` says that it maintains the event order (nexosim/src/simulation.rs:714). It
  lists the heap in storage order and drops epochs.
  `QueuePersistence.HeapOrderKeptIffRestUnambiguous`: for the arrays of binary heaps, the
  pairs are pulled in the same order if and only if queued items with equal keys, apart
  from the first item, have equal values. (`QueuePersistence.OrderKeptIffUnambiguous` is
  the condition for listings in any order.) `QueuePersistence.RestoreSwaps`: after four
  queries under one key were pushed behind an earlier one and that one was pulled, the
  array is such that two of them are swapped.
- `find_bit` says that a rank above the number of set bits gives the highest position. The
  ranks are compared through the sign of a difference (nexosim/src/util/bit.rs:87-89).
  `FindBit.FindBit`: the highest position is returned if and only if the rank is at most
  2^(BITS-1) plus the number of set bits in the lower half of the word;
  `FindBit.LargestRank`: for the largest rank position 0 is returned instead. The
  only caller in the repository passes ranks up to BITS.
- `SharedCell` says that a writer always succeeds against readers. With two readers it need
  not: `SharedCell.TwoReadersDefeatTheWriter` is a run. With one reader at a time a write
  fails only if at some moment of it another one holds a slot
  (`SharedCell.WriteFailsOnlyIfRivalled`), and that one succeeds (`SharedCell.HolderSucceeds`, `SharedCell.HolderIsNotStopped`);
  `SharedCell.LoneWriteFailsIffReadersHoldBoth` is the exact condition for any number of
  readers. The comment that both lock bits are never set together
  (nexosim/src/util/shared_cell.rs:37-38) is refuted by `SharedCell.BothBitsCanBeSet`.
- The second comparison in the loop of `sift_up` (nexosim/src/util/indexed_priority_queue.rs:264-267) can never
  succeed; the model keeps it.

## Model

| member | source | states |
|---|---|---|
| TaskLifecycle.RunKeeps | nexosim/src/executor/task.rs:61-283 | the invariant over word, core, handles, Runnables and pending clean-ups holds in every state of every interleaving of wake, clone, drop, run, cancel and promise poll |
| TaskLifecycle.TaskSafety | nexosim/src/executor/task.rs:129-283 | in every reachable state no step has touched a freed task or the wrong stage of the core, the reference count is the number of live handles, there is at most one Runnable, exactly when the flags say so, the core has one user at a time, and future drop, output disposal and deallocation happened at most once |
| TaskLifecycle.FreedExactlyAtTheEnd | nexosim/src/executor/task/runnable.rs:25-276 | the task is freed if and only if the last owner is gone, and then the future was dropped exactly once and no output is left behind |
| TaskLifecycle.PhasesAdvance | nexosim/src/executor/task.rs:61-99 | along every run the phase only moves from Polling to another phase and from there to Closed |
| TaskLifecycle.PollReportsOnce | nexosim/src/executor/task/promise.rs:23-66 | once a promise poll has reported anything but Pending, every later poll reports Cancelled: the output is handed over at most once |
| TaskLifecycle.PollReports | nexosim/src/executor/task/promise.rs:23-66 | a promise poll reports Ready if and only if it is given the output, which the task then holds and which it leaves closed; it reports Cancelled if and only if the task is closed; otherwise nothing changes |
| TaskLifecycle.NoLostWakeUp | nexosim/src/executor/task/runnable.rs:66-218 | an idle task has started a poll after every wake-up issued so far, and an uncancelled task with a wake-up not yet followed by a poll has a Runnable; what a Runnable does with a task, closed or not, is stated by `RunBegins` and the lemmas after it |
| TaskLifecycle.WakeCreatesRunnable | nexosim/src/executor/task.rs:204-244 | a wake-up creates one Runnable if and only if it finds the task idle |
| TaskLifecycle.ClosedIsNotPolled | nexosim/src/executor/task/runnable.rs:66-90 | once a task is closed and no Runnable has read its word before that, no Runnable ever polls it again |
| TaskLifecycle.CancelCloses | nexosim/src/executor/task/cancel_token.rs:28-127 | cancelling closes an uncompleted task for ever; the token itself disposes of the future exactly if the task is idle |
| TaskLifecycle.RunBegins | nexosim/src/executor/task/runnable.rs:66-90 | a Runnable by itself polls an open task, having seen all wake-ups issued so far, and goes on to cancel a closed one |
| TaskLifecycle.CancelEnds | nexosim/src/executor/task/runnable.rs:223-276 | the cancellation drops the future, closes the task and ends the Runnable |
| TaskLifecycle.ReadyEnds | nexosim/src/executor/task/runnable.rs:93-196 | after a poll that is ready the future is dropped, the output stored and the task completed |
| TaskLifecycle.PendingEnds | nexosim/src/executor/task/runnable.rs:198-218 | after a poll that is pending the task is left idle if and only if no wake-up or cancellation has come since the word was read; otherwise the Runnable looks at it again |
| TaskWord.UnpackPack | nexosim/src/executor/task.rs:25-43 | unpacking a packed word gives the record back |
| TaskWord.PackUnpack | nexosim/src/executor/task.rs:25-43 | packing an unpacked 64-bit word gives the word back |
| TaskWord.PackedTests | nexosim/src/executor/task/util.rs:21-23 | every mask test of the source on the packed word agrees with the corresponding test on the record |
| TaskWord.RmwRefines | nexosim/src/executor/task.rs:129-283 | each wrap-around addition, subtraction or masking of the packed word has the effect of the record update, while the counters stay in range |
| TaskWord.PackedRunRefines | nexosim/src/executor/task.rs:25-43 | along every run the packed word goes through exactly the values that the source computes, as long as both counters fit their fields |
| QueueGeometry.NextPowerOfTwo | nexosim/src/channel/queue.rs:138-166 | the result is a power of two that is not below the argument |
| QueueGeometry.NextPowerIsLeast | nexosim/src/channel/queue.rs:138-166 | no smaller power of two would do |
| QueueGeometry.PosIndex | nexosim/src/channel/queue.rs:351-370 | masking the n-th position gives the slot of the n-th reservation, for any capacity |
| QueueGeometry.IxIsRemainder | nexosim/src/channel/queue.rs:138-166 | the n-th reservation goes to slot n mod capacity in lap n / capacity |
| QueueGeometry.NextPosIsNext | nexosim/src/channel/queue.rs:351-370 | `next_queue_pos` maps the n-th position to the next one, across the end of a lap too |
| QueueGeometry.PosFlag | nexosim/src/channel/queue.rs:138-166 | the closed flag is not set in any position and can be added without disturbing it |
| QueueGeometry.PosIncreases | nexosim/src/channel/queue.rs:351-370 | positions increase strictly with their number |
| QueueGeometry.LenIsExact | nexosim/src/channel/queue.rs:330-343 | the length computed from the two position words is the number of messages between them, whatever the capacity and the closed flag |
| MpscQueue.RunKeeps | nexosim/src/channel/queue.rs:169-303 | the invariant over stamps, messages, producers and consumer holds in every state of every interleaving |
| MpscQueue.QueueSafety | nexosim/src/channel/queue.rs:169-292 | messages are popped exactly in the order of successful reservations; at most `capacity` slots are held; every slot has one owner; the stamp under the dequeue position is the position or one more; no `unreachable!` and no debug assertion fails; the reported length is reserved minus popped |
| MpscQueue.Exclusive | nexosim/src/channel/queue.rs:50-69 | no two producers, and no producer and the consumer, work on the same slot |
| MpscQueue.HistoriesGrow | nexosim/src/channel/queue.rs:295-303 | accepted and popped messages are never revoked, and once closed the queue accepts nothing more |
| MpscQueue.ClosedIsFinal | nexosim/src/channel/queue.rs:275-303 | a pop reports a closed queue if and only if it was closed and every accepted message was popped, and from then on for ever |
| MpscQueue.PopDelivers | nexosim/src/channel/queue.rs:242-292 | a message whose push has completed is what the next pop returns, closed or not |
| MpscQueue.FullWasFull | nexosim/src/channel/queue.rs:180-232 | a push reports a full queue only if all slots were reserved and unreleased when it loaded the stamp; `PushGivesUp` shows that a push gives up for no other reason |
| MpscQueue.PushGivesUp | nexosim/src/channel/queue.rs:169-234 | a push that ends without a slot has read the position of a closed queue, or had found all slots held while it looked at the same position; a lost race is no reason |
| MpscQueue.PushReserves | nexosim/src/channel/queue.rs:169-234 | a push by itself on an open queue reserves the next slot if one is free, and otherwise leaves everything as it was |
| MpscQueue.PushIsRejected | nexosim/src/channel/queue.rs:173-178 | a push on a closed queue leaves everything as it was |
| MpscQueue.PushFills | nexosim/src/channel/queue.rs:198-217 | a reserved slot is filled and stamped, so that the message counts as completed |
| MpscQueue.PopFindsNothing | nexosim/src/channel/queue.rs:242-292 | a pop takes a message exactly if the next one has been completed |
| MpscQueue.BorrowReturns | nexosim/src/channel/queue.rs:50-69 | dropping the borrow hands the slot back to the producers |
| CausalMessaging.CausalOrder | nexosim/src/lib.rs:402-408 | if one send happens before another and both target the same mailbox, the first message is received first |
| CausalMessaging.OneToOne | nexosim/src/lib.rs:402-408 | messages from one model to another are received in the order in which they were sent |
| CausalMessaging.Transitivity | nexosim/src/lib.rs:402-408 | a message to B sent before a message to C is received by B before anything that C sends to B after receiving its message |
| CausalMessaging.BoxInv | nexosim/src/channel.rs:94-240 | every mailbox of every network run satisfies the invariant of the queue |
| TaskSet.RunKeeps | nexosim/src/util/task_set.rs:123-399 | the invariant over head, links, iterators and wakers holds in every state of every interleaving |
| TaskSet.TaskSetSafety | nexosim/src/util/task_set.rs:123-399 | stack and iterators are disjoint acyclic chains that end in EMPTY, every task that is not asleep is in one of them or held by one waker, and every scheduling is yielded or discarded exactly once; which of the two is stated by `AdvanceYields` and `SleepingWasYielded` |
| TaskSet.PlaceIsUnique | nexosim/src/util/task_set.rs:249-349 | a sleeping task is nowhere, any other task is in exactly one place |
| TaskSet.AdvanceYields | nexosim/src/util/task_set.rs:360-380 | the iterator passes to the next task of its chain and puts this one to sleep; it yields it if and only if its index is below the current size, and else discards it |
| TaskSet.SleepingWasYielded | nexosim/src/util/task_set.rs:123-380 | as long as no iterator is dropped and the set is not resized, every task was yielded exactly as often as it was scheduled, but for one scheduling if it is awake |
| TaskSet.TakeGetsStack | nexosim/src/util/task_set.rs:123-165 | a take by itself gets exactly the tasks of the stack in order, and from an empty stack none, after which the countdown is armed |
| TaskSet.IteratorYieldsAll | nexosim/src/util/task_set.rs:360-380 | an iterator by itself visits all its tasks and yields the ones that are still part of the set |
| TaskSet.WakeSchedules | nexosim/src/util/task_set.rs:250-349 | a wake-up of a sleeping task by itself pushes it, and notifies the parent if and only if the countdown was at one |
| TaskSet.WakeConfirms | nexosim/src/util/task_set.rs:250-290 | a wake-up of a task that is awake changes nothing |
| TaskSet.NotifiesAtNthPush | nexosim/src/util/task_set.rs:123-158 | after a take that found nothing and asked for n notifications, and until the next take, the parent is notified by the n-th push and by no other one |
| TaskSet.WakeIsNotLost | nexosim/src/util/task_set.rs:249-349 | when a wake-up is over its task is scheduled more often than yielded or discarded |
| WorkerPool.FirstIdle | nexosim/src/executor/mt_executor/pool_manager.rs:70-117 | the worker chosen is the first one whose bit is not set, or the pool size if all are |
| WorkerPoolInvariant.RunKeeps | nexosim/src/executor/mt_executor.rs:438-624 | the invariant over workers, bits, lock, injector, main thread and the three sums holds in every state of every run |
| WorkerPoolInvariant.PoolSafety | nexosim/src/executor/mt_executor.rs:438-624 | no assertion or unwrap fails, the search count is exact, every scheduled task was run or is in exactly one place, and the global message count plus the local ones is pushed minus popped |
| WorkerPoolInvariant.IdleMeansDone | nexosim/src/executor/mt_executor/pool_manager.rs:130-197 | whenever no bit is set during a run, every scheduled task has been run, injector, local queues and fast slots are empty, and the message count is pushed minus popped |
| WorkerPoolInvariant.ReturnIsExact | nexosim/src/executor/mt_executor.rs:242-259 | `run` returns Ok if and only if every message sent was received, and otherwise reports exactly the number of missing ones |
| WorkerPoolInvariant.ActivationIsNotLost | nexosim/src/executor/mt_executor/pool_manager.rs:70-117 | a parked worker whose bit is set has its token, or somebody is about to unpark it |
| WorkerPoolInvariant.MainIsWoken | nexosim/src/executor/mt_executor.rs:498-624 | the main thread never waits on an idle pool without a token or a worker about to give it one |
| WorkerPoolInvariant.NoDeadlock | nexosim/src/executor/mt_executor.rs:242-624 | as long as a run is not over, some worker or the main thread has a step that changes the state; where such steps lead is stated in `WorkerPoolProgress` |
| WorkerPoolInvariant.HintIsRight | nexosim/src/executor/mt_executor/injector.rs:56-151 | the last active worker may rely on the empty flag of the injector although it is stored after the change |
| WorkerPoolInvariant.SearchCanStep | nexosim/src/executor/mt_executor.rs:498-624 | a searching worker is stopped by nothing but the lock; what it finds is stated in `WorkerPoolProgress` |
| WorkerPoolInvariant.FetchCanStep | nexosim/src/executor/mt_executor/injector.rs:127-151 | a bucket taken from the injector always fits into the local queue |
| WorkerPoolInvariant.InsertTaskTasks | nexosim/src/executor/mt_executor/injector.rs:56-84 | inserting a task adds exactly that task to the injector, whichever bucket it goes to |
| WorkerPoolProgress.GivesUpAfterLooking | nexosim/src/executor/mt_executor.rs:551-605 | a worker goes from a search to deactivation only if, since the last time it turned to the injector, there was a state in which the injector was empty or its hint said so |
| WorkerPoolProgress.GivesUpAfterTrying | nexosim/src/executor/mt_executor.rs:587-601 | and only after a steal from every worker that was active at its last scan has failed |
| WorkerPoolProgress.HintIsExact | nexosim/src/executor/mt_executor/injector.rs:56-151 | while nobody holds the lock the empty hint is up if and only if the injector is empty |
| WorkerPoolProgress.SoloRuns | nexosim/src/executor/mt_executor.rs:498-624 | a worker by itself, searching, just unparked or the last active one on its way to sleep, runs a task if the injector is unlocked and not empty |
| WorkerPoolProgress.SoloRunsStolen | nexosim/src/executor/mt_executor.rs:587-618 | a stealing worker by itself that comes across a queue with tasks runs one |
| WorkerPoolProgress.LastWakesMain | nexosim/src/executor/mt_executor.rs:521-540 | the last active worker by itself, with nothing left, clears its bit, wakes the main thread and parks |
| WorkerPoolProgress.MainReturns | nexosim/src/executor/mt_executor.rs:242-259 | a main thread that is woken with no bit set returns, with the exact count of missing messages |
| WorkerPoolProgress.MainActivates | nexosim/src/executor/mt_executor.rs:242-262 | a call of `run` activates the first worker and waits |
| WorkerPoolProgress.SoloActivates | nexosim/src/executor/mt_executor/pool_manager.rs:70-117 | a worker by itself that has queued a task while nobody searches activates an idle worker if there is one |
| EventQueue.LeastExists | nexosim/src/util/priority_queue.rs:21-27 | key and epoch order the items of a non-empty queue so that one comes strictly first |
| EventQueue.PriorityQueue.Insert | nexosim/src/util/priority_queue.rs:75-82 | the pair is added with a fresh epoch above all others |
| EventQueue.PriorityQueue.Peek | nexosim/src/util/priority_queue.rs:103-107 | the item with the least key, the first inserted among equals, or none if the queue is empty |
| EventQueue.PriorityQueue.Pull | nexosim/src/util/priority_queue.rs:90-94 | the same item, and nothing else, is removed |
| EventQueue.PriorityQueue.Clear | nexosim/src/util/priority_queue.rs:115-118 | the queue is empty and epochs restart |
| SchedulerStep.PeekNextKey | nexosim/src/simulation.rs:1433-1452 | only cancelled items within the bound are evicted; the key returned is that of the least item, which was not cancelled before; none means that no item is within the bound |
| SchedulerStep.PullNext | nexosim/src/simulation.rs:1479-1502 | the head is pulled, a recurring event is inserted once more one period later under the same origin, and an item of an unknown source is lost with an error |
| SchedulerStep.TakeGroup | nexosim/src/simulation.rs:1477-1509 | all live items with the key of the head, and no other, are merged in order of insertion |
| SchedulerStep.HandleSchedulerStep | nexosim/src/simulation.rs:1461-1516 | the step terminates; exactly the items of its time that are not cancelled are spawned, one non-empty future per origin in increasing order of origins, in order of insertion; each recurring one is inserted again exactly once; no key at or before the step time is left; on failure exactly what was spawned, pending and lost; it fails only if some queued item has an unknown source |
| SchedulerStep.HandleInjectorStep | nexosim/src/simulation.rs:1526-1566 | the injector queue is emptied and every item spawned once, one non-empty future per origin, in order of insertion; it fails only if some injected item has an unknown source |
| SeqFutures.SeqFuture.Push | nexosim/src/util/seq_futures.rs:29-31 | the future comes last |
| SeqFutures.SeqFuture.Poll | nexosim/src/util/seq_futures.rs:37-50 | ready futures are passed, the first pending one is polled once and nothing behind it is touched; ready if and only if all are ready |
| SeqFutures.SeqFuture.Drive | nexosim/src/util/seq_futures.rs:37-50 | completion takes exactly one poll more than the pending answers of all futures together |
| Simulation.Simulation.ScheduleFrom | nexosim/src/simulation/scheduler.rs:311-485 | an item is inserted if and only if its deadline lies strictly in the future and its period, if any, is not null; otherwise the queue is unchanged |
| Simulation.Simulation.LockedStep | nexosim/src/simulation.rs:603-625 | the time moves to the next live key or tick, whichever is earlier, and then every queued item lies strictly in the future; exactly the live items of that time are spawned, in order and once each, what else leaves the queue was cancelled, and exactly the renewals are new; it fails only with an unknown source, and not if all queued items have known ones |
| Simulation.Simulation.WriteAndSpawn | nexosim/src/simulation.rs:614-625 | the same for the part that follows the choice of the step time, on failure too: what was spawned are live items of the step |
| Simulation.Simulation.FinishStep | nexosim/src/simulation.rs:626-640 | every item injected before the step is spawned at the current time, whatever other threads add meanwhile, nothing is lost from the scheduler queue and nothing of it is spawned; on Ok the clock was waited for and all spawned futures have been run; if no other thread acts, no flag is set and all sources are known it succeeds, and otherwise an error names an unknown source or comes with the simulation terminated |
| Simulation.Simulation.StepToNext | nexosim/src/simulation.rs:584-641 | with all queued items in the future, a step advances time strictly and keeps them so, whatever other threads do meanwhile; what the scheduler spawns are live items of the new time, in order, each queued before or scheduled meanwhile; no item is spawned twice in a whole run or without having been scheduled or renewing one that was (in `Valid`); all injected items are spawned; there is a step if a tick or an item that nobody can cancel lies within the bound, and when no other thread acts only if a tick or a live item does; then time moves forward if and only if no live item lies at or before it; if moreover no flag is set and all sources are known it succeeds; on Ok the clock was waited for and all spawned futures have been run; a halted simulation gets Halted and is no longer halted, else a terminated one gets Terminated, in both cases without any effect; any other error names an unknown source or comes with the simulation terminated |
| Simulation.Simulation.Advance | nexosim/src/simulation.rs:599-641 | the same for the step that no flag stops, on failure too, with the same conditions for success |
| Simulation.Simulation.FindStep | nexosim/src/simulation.rs:603-610 | cancelled heads are evicted and the earlier one of the next live key and the tick is chosen |
| Simulation.Simulation.NextTick | nexosim/src/simulation.rs:599-602 | the tick of the ticker if it lies within the bound |
| Simulation.TimeGoesBack | nexosim/src/simulation.rs:584-641 | after the race the next step writes time 5 at time 10 |
| Simulation.Simulation.StepUntilUnchecked | nexosim/src/simulation.rs:652-674 | the loop terminates; futures are spawned in the order of their times; on Ok the time is the target, every occurrence of every queued item up to the target was spawned at its own time unless cancelled by then, what is left behind are exactly the requests of the window that were overtaken, and all writes of the time but the last are steps; if no other thread acts, no flag is set and all sources are known it succeeds; on Ok all spawned futures have been run and the clock was waited for; a halted or terminated simulation gets that error without any effect |
| Simulation.Simulation.StepWhileDue | nexosim/src/simulation.rs:656-673 | the loop: it ends at the target or with nothing left up to it; it makes a step if one is due before the call and, when no other thread acts, only then; it succeeds and fails as `StepToNext` does |
| Simulation.Simulation.Jump | nexosim/src/simulation.rs:661-674 | the unlocked write: what lies at or before the target afterwards is exactly what requests of the window, accepted before it, have put there; it fails only if the clock lags |
| Simulation.Simulation.StepUntil | nexosim/src/simulation.rs:338-345 | a deadline in the past is rejected without effect; time does not decrease if all queued items lie in the future; on Ok nothing at or before the target is left if a step reached it, and otherwise if and only if no request of the window was accepted at or before the target; injected items are spawned if the next tick or an item that nobody can cancel lies at or before the target, and when no other thread acts if and only if the next tick or a live item does, and else stay queued; with a deadline that is not in the past it succeeds if no other thread acts, no flag is set and all sources are known, gets Halted or Terminated without any effect if a flag is set, and fails only with one of the causes of a step |
| Simulation.WaitingInjection | nexosim/src/simulation.rs:652-674 | an item injected before the call is still in the injector queue, and nothing was spawned, when `step_until` has returned Ok |
| Simulation.ServingStep | nexosim/src/simulation.rs:584-641 | items injected before a run stay queued until its first step and are spawned by it |
| Simulation.Simulation.Inject | nexosim/src/simulation/injector.rs:112-116 | the item is added to the injector queue under its origin |
| Simulation.OvertakenEvent | nexosim/src/simulation.rs:652-674 | the race: an event for time 5 accepted in the window at time 0 is still queued when `step_until` has returned Ok at time 10 |
| Simulation.WindowLeaves | nexosim/src/simulation.rs:661-666 | items of the window lie behind the target if and only if their requests were overtaken; nothing else does |
| Simulation.NothingLeftIff | nexosim/src/simulation.rs:338-345 | nothing is left at or before the target if and only if no request was overtaken |
| Simulation.AdditionsFulfil | nexosim/src/simulation/scheduler.rs:311-485 | of a sequence of requests exactly the accepted ones put an item into the queue |
| EventHistory.ChooseTime | nexosim/src/simulation.rs:603-610 | a step is found if there is a tick or a sure item within the bound; if nobody else cancels there is none otherwise, its time is that of an item unless there is a tick, and it lies in the future exactly if all live items do |
| EventHistory.SteppedAfter | nexosim/src/simulation.rs:603-625 | what other threads did before the lock does not take away from what the step guarantees |
| EventHistory.SteppedBefore | nexosim/src/simulation.rs:626-640 | nor does what they do after it |
| EventHistory.EvictThenTake | nexosim/src/simulation.rs:1433-1516 | evicting cancelled items and taking those of one time is one exact step: the items taken are live, distinct and in order, the rest was cancelled, and exactly the renewals are new |
| EventHistory.StepAdvances | nexosim/src/simulation.rs:1461-1516 | one step leaves every item queued, cancelled in time, or spawned and, if recurring, renewed |
| EventHistory.FollowedAdvances | nexosim/src/simulation.rs:652-674 | the fate of a recurring item is followed from step to step: all occurrences before the next one were spawned, and that one is queued or was cancelled no later than its time |
| EventHistory.FollowedMeansHonoured | nexosim/src/simulation.rs:643-651 | once nothing up to the target is queued, every occurrence up to the target was spawned, except those after the cancellation |
| EventHistory.TracedStep | nexosim/src/simulation.rs:584-641 | along a run nothing is spawned twice, nothing comes back into the queue, and every item was scheduled or renews one that has left the queue |
| EventHistory.DispatchedMore | nexosim/src/simulation.rs:1461-1516 | a step adds to the items spawned so far exactly those of its groups, in order |
| QueuePersistence.SaveQueue | nexosim/src/simulation.rs:714-727 | every item is listed exactly once, in some order, without its epoch |
| QueuePersistence.RestoreQueue | nexosim/src/simulation.rs:729-749 | the queue holds exactly the listed pairs, in listed order of epochs |
| QueuePersistence.SaveAndRestore | nexosim/src/simulation.rs:714-749 | a round trip preserves how often each pair of key and item occurs, and the order of the pairs pulled if equal keys carry equal items |
| QueuePersistence.PullAll | nexosim/src/util/priority_queue.rs:90-94 | pulling until the queue is empty yields every item once, in the order of keys and epochs |
| QueuePersistence.SamePulls | nexosim/src/simulation.rs:714-749 | two queues with equally many copies of each pair, and equal items under equal keys, yield the same sequence of pairs |
| QueuePersistence.OrderKeptIffUnambiguous | nexosim/src/util/priority_queue.rs:110-112 | the pairs are pulled in the same order after a round trip, for every listing of the queue, if and only if no two queued items have equal keys and different values |
| QueuePersistence.HeapOrderKeptIffRestUnambiguous | nexosim/src/util/priority_queue.rs:110-112 | the same for every array in which a binary heap can store the queue, if and only if no two items other than the first have equal keys and different values |
| QueuePersistence.RootStaysFirst | nexosim/src/simulation.rs:714-749 | the root of the array is pulled first before and after a round trip |
| QueuePersistence.RestoreSwaps | nexosim/src/simulation.rs:714-749 | four queries under one key, left in the array by five pushes and the pull of an earlier one, are pulled in the order 1, 2, 3, 4 before a round trip and 1, 3, 2, 4 after it |
| QueuePersistence.OnePopped | nexosim/src/util/priority_queue.rs:75-94 | the array that five pushes and a pop leave behind |
| BinaryHeap.PushInserts | nexosim/src/util/priority_queue.rs:75-82 | the array heap holds one more item and is ordered again |
| BinaryHeap.PopTakesLeast | nexosim/src/util/priority_queue.rs:90-94 | the array heap gives up the least item by key and epoch, keeps all others and is ordered again |
| Ticker.FromNanos | nexosim/src/time/ticker.rs:147-154 | the conversion is exact and its `unwrap` never fails for what the ticker passes to it |
| Ticker.AfterReference | nexosim/src/time/ticker.rs:112-125 | both computations after the reference give the least grid point after the time |
| Ticker.BeforeReference | nexosim/src/time/ticker.rs:126-137 | so does the one before the reference |
| Ticker.PeriodicTicker.NextTick | nexosim/src/time/ticker.rs:104-142 | the tick is the least point of the grid through the reference that lies strictly after the time, and becomes the new reference |
| Ticker.PeriodicTicker.Ticks | nexosim/src/time/ticker.rs:104-142 | for any sequence of calls, forward or backward in time, every tick is the next one of the original grid |
| IndexedHeap.RootIsLeast | nexosim/src/util/indexed_priority_queue.rs:140-180 | heap order makes the root the least item |
| IndexedHeap.SwapLinked | nexosim/src/util/indexed_priority_queue.rs:246-310 | exchanging two items together with their back-pointers keeps all cross-indices and every node's value and item |
| IndexedHeap.ReplaceByLast | nexosim/src/util/indexed_priority_queue.rs:226-235 | the last item put in a vacant place needs sifting in one direction only, the one that the comparison selects |
| IndexedPriorityQueue.RootIsFirst | nexosim/src/util/indexed_priority_queue.rs:140-180 | the root stands for the pair with the least key, the earliest among equal keys |
| IndexedPriorityQueue.KeyTest | nexosim/src/util/indexed_priority_queue.rs:201-214 | the test of `extract` accepts exactly the insertion keys of pairs in the queue |
| IndexedPriorityQueue.Queue.NewNode | nexosim/src/util/indexed_priority_queue.rs:91-115 | a free node is reused, or a new one appended, and the free list still lists all free nodes once |
| IndexedPriorityQueue.Queue.SiftUp | nexosim/src/util/indexed_priority_queue.rs:246-274 | heap order and cross-indices are established; no node loses its value or item |
| IndexedPriorityQueue.Queue.SiftDown | nexosim/src/util/indexed_priority_queue.rs:279-310 | the same, downwards |
| IndexedPriorityQueue.Queue.Insert | nexosim/src/util/indexed_priority_queue.rs:84-133 | the map gains one pair under an insertion key that was never used before |
| IndexedPriorityQueue.Queue.Pull | nexosim/src/util/indexed_priority_queue.rs:140-166 | exactly the first pair by key and insertion is removed and returned; none if and only if the map is empty |
| IndexedPriorityQueue.Queue.Peek | nexosim/src/util/indexed_priority_queue.rs:173-180 | the first pair, unchanged |
| IndexedPriorityQueue.Queue.PeekKey | nexosim/src/util/indexed_priority_queue.rs:188-192 | the key of the first pair |
| IndexedPriorityQueue.Queue.Extract | nexosim/src/util/indexed_priority_queue.rs:201-241 | if the insertion key is that of a pair in the queue, this pair is removed and returned; any other key, such as one whose pair has left, extracts nothing and changes nothing |
| KeyRegistry.Registry.InsertKey | nexosim/src/server/key_registry.rs:18-24 | the key is registered under a new identifier with its deadline |
| KeyRegistry.Registry.InsertEternalKey | nexosim/src/server/key_registry.rs:27-29 | the key is registered and no expiry ever removes it |
| KeyRegistry.Registry.ExtractKey | nexosim/src/server/key_registry.rs:34-36 | the registered key is removed and returned, or none if it is not registered |
| KeyRegistry.Registry.RemoveExpiredKeys | nexosim/src/server/key_registry.rs:39-47 | exactly the keys with a deadline strictly before `now` are removed |
| SharedCell.OneHolder | nexosim/src/util/shared_cell.rs:56-145 | no two operations are between acquiring and releasing the same slot, whatever bits losing operations leave in the lock word |
| SharedCell.MetIsOverlap | nexosim/src/util/shared_cell.rs:56-117 | the recorded encounter of another write is a moment at which both writes were in progress |
| SharedCell.WriteFailsOnlyIfRivalled | nexosim/src/util/shared_cell.rs:51-117 | with one reader at a time a write fails only if at some moment of it another write holds a slot |
| SharedCell.HolderSucceeds | nexosim/src/util/shared_cell.rs:51-117 | a write that holds a slot keeps it until it has succeeded |
| SharedCell.HolderIsNotStopped | nexosim/src/util/shared_cell.rs:64-109 | its next step is always enabled, and at most three are left |
| SharedCell.LoneWriteFailsIffReadersHoldBoth | nexosim/src/util/shared_cell.rs:56-117 | for any number of readers, a write that meets no other one fails if and only if readers hold the slots at its two attempts |
| SharedCell.CleanReadReturnsLatest | nexosim/src/util/shared_cell.rs:118-145 | with one writer and one reader, a read that overlaps no write gets its lock and returns the last value written and not yet taken |
| SharedCell.ReaderAloneGetsLatest | nexosim/src/util/shared_cell.rs:118-145 | between writes a reader by itself gets the last value written and not yet taken, and leaves none |
| SharedCell.WriterAloneSucceeds | nexosim/src/util/shared_cell.rs:51-117 | a writer by itself succeeds although the reader may hold the current slot, and its value is the latest then |
| SharedCell.TwoReadersDefeatTheWriter | nexosim/src/util/shared_cell.rs:1-13 | a run in which the only writer fails because two readers hold both slots |
| SharedCell.BothBitsCanBeSet | nexosim/src/util/shared_cell.rs:35-39 | a run in which both bits of a lock word are set |
| SyncCell.RunKeeps | nexosim/src/util/sync_cell.rs:105-185 | the invariant over count, fields, writer and readers holds in every state of every interleaving, for any number of fields and readers |
| SyncCell.ReadsAreWholeAndMonotone | nexosim/src/util/sync_cell.rs:155-185 | no successful read mixes fields of two writes, and the reads of one reader never go back to an older write |
| SyncCell.ReadReturnsLatest | nexosim/src/time/monotonic_time.rs:29-44 | a successful read returns the whole value of the last completed write while none is in progress |
| SyncCell.ReadSucceedsUnlessOverlapped | nexosim/src/util/sync_cell.rs:151-185 | a read begins only while no write is in progress, and then succeeds if and only if no write has begun before it ends |
| SyncCell.ReadRemembers | nexosim/src/util/sync_cell.rs:155-185 | it begins if no write is in progress, and the count tells at every later moment whether one has begun since |
| SyncCell.ReaderAloneSucceeds | nexosim/src/util/sync_cell.rs:155-185 | a reader by itself, while no write is in progress, reads all fields and returns the last value written |
| FindBit.MaskIsQuotient | nexosim/src/util/bit.rs:107-122 | the quotient of the source is the mask of alternating fields, for every word size |
| FindBit.SumMasks | nexosim/src/util/bit.rs:107-122 | all masks of the tree of adders |
| FindBit.FirstLevel | nexosim/src/util/bit.rs:43-45 | subtracting the odd bits turns each pair of bits into its sum |
| FindBit.MaskThenAdd | nexosim/src/util/bit.rs:47-48 | masked addition of even and odd fields gives the sums of pairs of fields |
| FindBit.AddThenMask | nexosim/src/util/bit.rs:57-63 | from groups of four on, the mask may come after the addition without carries between fields |
| FindBit.SubSums | nexosim/src/util/bit.rs:37-63 | every level holds the number of set bits of each of its groups |
| FindBit.CmpMaskExact | nexosim/src/util/bit.rs:87 | the sign of the wrapped signed difference tells that the rank exceeds the sum, unless it exceeds it by more than 2^(BITS-1) |
| FindBit.Search | nexosim/src/util/bit.rs:65-92 | the binary search, with that comparison, ends at the bit of the given rank, and for a rank above the number of set bits at the highest position or, if the rank is huge, at position 0 |
| FindBit.FindBit | nexosim/src/util/bit.rs:30-93 | for every word and every rank that fits a word: a set bit with exactly rank - 1 set bits below it; position 0 for rank 0; above the number of set bits the highest position if and only if the rank is at most 2^(BITS-1) plus the number of set bits in the lower half, and else position 0 |
| FindBit.LargestRank | nexosim/src/util/bit.rs:87-89 | the largest rank of all gives position 0 |
| ShuffledStealers.IndicesExact | nexosim/src/executor/mt_executor/pool_manager.rs:243-256 | the specification lists exactly the set bits of a range, in increasing order |
| ShuffledStealers.RotationOrder | nexosim/src/executor/mt_executor/pool_manager.rs:279-291 | the rotated field lists the candidates from the chosen one on and then those before it |
| ShuffledStealers.FirstCandidate | nexosim/src/executor/mt_executor/pool_manager.rs:275-277 | the worker drawn is a candidate |
| ShuffledStealers.Rotate | nexosim/src/executor/mt_executor/pool_manager.rs:271-294 | shifts and masks rotate the field by the position of the chosen candidate |
| ShuffledStealers.Stealers.constructor | nexosim/src/executor/mt_executor/pool_manager.rs:271-301 | the iterator will yield every candidate exactly once, in cyclic order from the chosen one |
| ShuffledStealers.Stealers.Next | nexosim/src/executor/mt_executor/pool_manager.rs:307-330 | the first remaining candidate is yielded and exactly that one is removed |

## Left out

- Memory orderings and fences: atomics are sequentially consistent.
- Wrap-around of 64-bit positions, sequence counts and epochs: they are unbounded; the epoch assertions of the two priority queues are not modelled.
- TaskWord.PackedRunRefines: assumes that both counters stay below 2^31; the panics at half that value (nexosim/src/executor/task.rs:25-43) are not modelled.
- IndexedPriorityQueue.Queue.Extract: keys carry no mark of their queue, so a key of another queue that matches slab index and epoch of a pair extracts it, as the source warns.
- FindBit.Search: wraps around as release builds do; a build with overflow checks panics for ranks from 2^(BITS-1) up to 2^(BITS-1) plus the sum compared with.
- BinaryHeap.PopTakesLeast: follows the algorithm of the standard library, which is not part of the repository; allocation is not modelled.
- Panics inside futures are modelled as completions of a poll that drop the future; unwinding itself, `catch_unwind` and the abort signal are not.
- Allocation, layout and destructor code of tasks: an owner that drops or frees something is a step with a count.
- WorkerPoolInvariant.PoolSafety: the work-stealing queues are abstract (any push may find its queue full for a while, any steal may fail), and worker panics, timeouts, the abort signal and the shutdown of the threads are not modelled.
- Spin-waits and the random choice of a victim are left to the scheduler of the steps. Progress is stated as absence of deadlock and as what a participant gets done if the others pause; liveness under fairness is not stated.
- The single-threaded executor, `slot.rs`, `cached_rw_lock.rs`, `path.rs`, the ports and the scoped thread-local storage: easier copies of what is proved here.
- Simulation.Simulation.StepToNext: the executor and the clock are arbitrary operations that terminate and, unless the simulation runs alone, may fail; the executor counts the futures it has run, and what they do, beyond scheduling and cancelling, is not modelled.
- Unbounded stepping without a target, which need not terminate, and the processing of single events and queries outside of steps.
- Cancellation after an item was handed to the executor.
- Overflow of simulation time, and the conversion of durations and dates into deadlines.
- Serialised bytes of saved simulations; the queue is saved and restored as a list of pairs.
- The gRPC server, the generated protocol code, macros, schemas, registries and tracing.
- The example models and the test suites.

# Verified models of the bthread runtime

This project models the concurrent protocols of the bthread runtime and proves what they keep over every run. Each
protocol is a labelled transition system: a `State`, an `Event` for every atomic step of every thread, a guard `Can…`
and a function `Step…` for each event, and runs that interleave the events in any order. Memory is sequentially
consistent, with one atomic access, or one region under a lock that everybody takes for the same data, as one step. An
inductive invariant is proved for every event, and the main theorems are about every reachable state. Where the source
changes data in place (intrusive lists, the write chain, the group array, free lists, counters), classes and methods
with loops are proved against sequences as well.

Fields that the doc comments call history record what happened (who took a waiter out, in which order requests were
exchanged, where a task is). No guard reads them to decide which branch the code takes. Other histories are functions
of the run: the reasons a wait was given, the tasks handed to workers, the ranges accepted, the ids handed out.

Three kinds of theorem stand beside each invariant: what every run keeps, which branch is taken exactly when, and
that each call can come to its end from every reachable state, by steps that are given.

| files | what they model |
|---|---|
| `ButexModel`, `ButexInvariant`, `ButexWaiting`, `ButexErasing`, `ButexWaking`, `ButexTheorems`, `ButexReasons`, `ButexHistory`, `ButexProgress`, `ButexUnsleep`, `ButexInterrupts`, `ButexScenes` | waiting, waking, requeueing, timing out and interrupting on butexes |
| `WaiterList`, `ButexLists` | the intrusive waiter lists and the loops under the waiter lock, in place |
| `IdLock`, `IdLockProgress`, `IdLockSleepers` | the version-number mutex of `bthread_id` on top of a butex, and who wakes its sleepers |
| `WriteQueue`, `WriteShape`, `WriteBytes`, `WriteReturns`, `WriteTheorems`, `WriteCompletion` | the exchange-based socket write queue with its KeepWrite thread |
| `WriteChain` | the reversal, Setup and release loops over linked write requests, in place |
| `StealScan`, `StealTask` | the strided scan over all groups |
| `Parking`, `ParkingCover`, `ParkingTasks`, `ParkingLooking`, `ParkingScenes`, `ScanScenes`, `ParkingLot` | signalling, saving the state of a parking lot, and sleeping in it |
| `GroupArray`, `GroupReaders` | registering and removing groups, in place and while others read without the lock |
| `RunQueue` | the run queues with their signal counters |
| `Sched`, `SchedInvariant`, `SchedSteps`, `SchedTheorems`, `SchedDestinations` | where each task is, who owns which stack, and the callback left for after a switch |
| `Sleep`, `SleepTheorems`, `SleepProgress` | `usleep`, its timer and its interrupters |
| `Join`, `JoinProgress`, `Tids` | versioned thread ids, the end of a thread, and those who join it |
| `Arithmetic`, `Bits` | divisors and remainders, shifts, masks and the bitwise or |
| `BlockAlloc`, `BlockProgress`, `PoolAddress`, `Pool`, `PoolTheorems`, `PoolProgress`, `PoolHeap` | the resource pool: block indices, ids, addresses and free lists |

## What is assumed

- Timers, the work-stealing queue, the remote queue, mutexes and the kernel futex are not part of this model. They are
  a timer that is pending, running or done, atomic queues, plain locks, and compare-and-block.
- Listings that the repository shows with a slip are modelled as their context says. `butex_requeue` takes its second
  butex from `arg2` (`dbrpc/butex.cpp:404`). The flag test at `dbrpc/butex.cpp:505` reads `task_meta->interrupted`, as
  in `docs/butex.md:200-201`. The timer callback at `dbrpc/butex.cpp:443-445` carries the timed-out state. The `else`
  at `dbrpc/task_group.cpp:581` belongs to the outer `if`, as in `docs/bthread_schedule.md:114-153`.
  `dbrpc/task_group.cpp:669` is `ready_to_run_remote(tid, nosignal)`, and `dbrpc/task_group.cpp:64` reads
  `version_butex`.
- A pthread waiter leaves `container` unset before it is queued (`dbrpc/butex.cpp:546-569`); it is taken to be NULL.
- `butex_requeue` is called with two different butexes.
- A version butex starts at 1.

## What does not hold, and when it does

- A deadline can be missed: the timer may fire and load a NULL container before the waiter is queued
  (`ButexScenes.DeadlineCanBeMissed`). It is kept exactly when the callback did not load that early
  (`ButexTheorems.DeadlineKeptIffNotEarly`).
- An interrupt can miss a waiter in two ways: it loads the container while the waiter is just being queued
  (`ButexScenes.InterruptCanBeMissed`), or it looks for the waiter before that is published and stores the flag after
  the waiter has looked at it (`ButexScenes.InterruptCanComeTooEarly`). An interrupter is about to erase an
  interrupted waiter exactly when neither happened (`ButexInterrupts.InterruptReachesWaiterIff`).
- An interrupt of a sleeper can be lost to a late write of `current_sleep` (`SleepTheorems.StaleSleepLosesInterrupt`).
  It finds the timer of the sleeper (`SleepTheorems.InterruptFindsTimerIff`), and an interrupted sleeper is about to be
  woken (`SleepTheorems.InterruptReachesSleeper`), exactly unless the callback of an earlier sleep stored its timer
  there after the callback of the present sleep was done. An earlier such store does no harm. An interrupter wakes the
  sleeper exactly when it took the pending timer of the present sleep (`SleepTheorems.InterruptWinsIff`).
- The mutual exclusion of an id lock holds in every run (`IdLock.MutualExclusion`), but a sleeper can be stranded:
  when a newcomer takes the lock just as it gets a value that a contender is going to sleep on, and nobody else is
  left who would wake it. This happens when `locked_ver` is enlarged (`IdLockSleepers.EnlargingCanStrand`) and only
  then (`IdLockSleepers.PlainLocksStrandNobody`). Every such lock can end with somebody asleep on the free id for good
  (`IdLockSleepers.StrandingLockStrands`); in a run without one nobody is abandoned
  (`IdLockSleepers.NobodyAbandoned`).
- A strided scan covers all groups exactly when its offset is coprime to their number and the seed does not wrap
  during the scan, or wraps where the number of groups divides 2^64 (`StealScan.ScanCoversIff`,
  `StealScan.WrapCanSkipAGroup`). Whenever a scan does not cover them, some run strands a task
  (`ScanScenes.IncompleteScanStrands`, `ScanScenes.BadOffsetStrands`).
- Exactly 2^31 signals between saving the state of a lot and waiting make a worker block with work queued
  (`ParkingScenes.CounterWrapBlocks`). That strands no work as long as fewer than 2^30 tasks are queued, which the
  capacities of the queues see to: the worker that saved its state last always gets to know
  (`ParkingCover.NoStrandedWork`).
- A reader of the group array that loaded an old length can miss a group when another is added during its scan
  (`GroupReaders.AdditionCanHideGroup`), exactly when the slot that is overwritten holds the last copy that the reader
  had still to visit (`GroupReaders.AdditionHidesIff`). Removals hide nothing, wherever the load and the visits fall
  between their two stores (`GroupReaders.ReaderSeesSurvivors`); with these two stores in the other order they would
  (`GroupReaders.CountFirstLosesGroup`).
- `_add_group` returns 0 also when the array is full and nothing was registered (`GroupArray.AddedMembers`).

## Model

| member | source | states |
|---|---|---|
| ButexTheorems.StepInv | dbrpc/butex.cpp:129-528 | every step of a waiter, timer, waker, requeuer or interrupter keeps the invariant of waiters, lists, tasks and agents |
| ButexTheorems.OneList | dbrpc/butex.cpp:255-425 | in every reachable state a waiter is in the list its container names and in no other, and once |
| ButexTheorems.OneHolder | dbrpc/butex.cpp:299-337 | a waiter on a private list of a waker, or being erased by a timer or an interrupter, is in no butex list, was not made runnable, and has one such holder |
| ButexTheorems.RousedAtMostOnce | dbrpc/butex.cpp:453-484 | each wait makes its tid runnable, or its pthread signalled, at most once |
| ButexTheorems.NoUseAfterReturn | docs/butex.md:152-160 | once a wait has returned no timer, waker, interrupter, list or task refers to its waiter on the stack |
| ButexTheorems.ToucherAlive | dbrpc/task_group.cpp:775-832 | a thread that may read or write a waiter does so before the wait clears its flag and returns |
| ButexTheorems.SpinsExcludeErasers | docs/butex.md:152-161 | past the first spin no timer callback runs, past the second no interrupter has the waiter, and while the second spins one has it |
| ButexTheorems.NoLostWakeup | dbrpc/butex.cpp:485-518 | on a butex changed only by a store followed by wake_all, a queued waiter expects the current value or such a store is still to wake |
| ButexReasons.AdmittedIffMatches | dbrpc/butex.cpp:501-570 | in every reachable state, for bthreads and pthreads, the check under the lock sends a waiter on to the list exactly if the value is the one it expects, and otherwise refuses it and frees the lock |
| ButexReasons.QueuedIffNotInterrupted | dbrpc/butex.cpp:505-571 | past that a waiter goes on to be queued exactly if its task has no interruption pending |
| ButexReasons.EnqueuedLast | dbrpc/butex.cpp:506-508 | a waiter that is queued is the last of its butex, which its container then names |
| ButexReasons.OneReason | dbrpc/butex.cpp:485-594 | along every run a wait gets at most one reason to end: another value, the flag, a waker, its deadline or an interrupter; it has none exactly while it is on its way to a list or in one, and one when it has returned |
| ButexReasons.AnswerTellsReason | docs/butex.md:166-183 | the state left in a returned waiter is that of its reason, and it was made runnable or signalled exactly for the reasons that it did not find itself |
| ButexHistory.AnswerIsReason | docs/butex.md:166-183 | a bthread gets ETIMEDOUT exactly if its deadline ended the wait, EWOULDBLOCK exactly if it saw another value, and else EINTR exactly if an interruption is pending |
| ButexHistory.FlagIsPending | dbrpc/task_group.cpp:807-813 | in every run an interruption is remembered until a wait of the task consumes it, and then gone |
| ButexHistory.ValueIsLastStored | dbrpc/butex.cpp:501-505 | the value a waiter is compared with is the one stored last |
| ButexProgress.WakeTakesFirst | dbrpc/butex.cpp:255-281 | wake takes exactly the waiter that came first, and no other list changes |
| ButexProgress.WakeAllTakesAll | dbrpc/butex.cpp:284-299 | wake_all takes exactly the waiters of its butex |
| ButexProgress.WakeExceptTakesOthers | dbrpc/butex.cpp:343-368 | wake_except takes a waiter exactly unless it is a bthread with the excluded tid |
| ButexProgress.RequeueMovesRest | dbrpc/butex.cpp:407-425 | requeue takes exactly the first waiter, the others end up behind those of the second butex, in order |
| ButexProgress.HeldAreRoused | dbrpc/butex.cpp:301-337 | a thread that took waiters out rouses every one of them by its own steps |
| ButexUnsleep.UnsleptBeforeRoused | dbrpc/butex.cpp:164-174 | when a waker makes a bthread runnable the timer of its wait is not pending any more |
| ButexProgress.WaitCanReturn | dbrpc/butex.cpp:581-593 | from every reachable state a wait that is out of its list can return, whatever locks are held and however far timer, interrupter and waker have come |
| ButexProgress.EveryWaitCanReturn | docs/butex.md:93-184 | so can every wait if one thread is free to call wake_all |
| ButexTheorems.DeadlineKeptIffNotEarly | docs/butex.md:121-136 | a queued waiter with a deadline has a live timer callback exactly when the callback did not load its container too early |
| ButexInterrupts.InterruptReachesWaiterIff | dbrpc/task_group.cpp:775-832 | a queued waiter whose bthread is interrupted is about to be erased exactly unless the interrupter loaded its container before that was stored, or found no waiter and stored the flag after the waiter had looked at it |
| ButexScenes.DeadlineCanBeMissed | docs/butex.md:121-136 | a run in which a waiter with a deadline stays queued after its timer ran |
| ButexScenes.InterruptCanBeMissed | dbrpc/butex.cpp:459-475 | a run in which an interrupted waiter stays queued and no interrupter is left |
| ButexScenes.InterruptCanComeTooEarly | dbrpc/task_group.cpp:783-788 | another such run: the interrupter finds no waiter, and stores the flag after the waiter has looked at it |
| WaiterList.List.Append | docs/linkedlist.md:20-24 | inserting before the root adds the waiter at the end of the ring |
| WaiterList.List.Remove | docs/linkedlist.md:40-43 | removing a waiter joins its neighbours, keeps the order of the others, and leaves it pointing to itself |
| WaiterList.MoveFirst | dbrpc/butex.cpp:288-298 | the first waiter of one list becomes the last of another, with its container stored and no other changed |
| ButexLists.Butex.Enqueue | dbrpc/butex.cpp:506-508 | the waiter is last in the list and names the butex |
| ButexLists.Butex.TakeFirst | dbrpc/butex.cpp:258-266 | the waiter that came first is taken out with its container cleared, the others stay in order |
| ButexLists.Butex.Erase | dbrpc/butex.cpp:459-471 | a waiter is erased exactly if its container is this butex, and then just that waiter |
| ButexLists.Separate | dbrpc/butex.cpp:288-298 | the loop of wake_all empties the list into bthreads and pthreads, in order, with containers cleared |
| ButexLists.Butex.TakeAll | dbrpc/butex.cpp:284-299 | the list is empty afterwards and the two private lists hold its bthreads and its pthreads |
| ButexLists.SeparateExcept | dbrpc/butex.cpp:348-363 | the loop of wake_except takes all but the excluded bthread, bthreads and pthreads apart, in order |
| ButexLists.Butex.TakeExcept | dbrpc/butex.cpp:343-368 | the excluded waiter alone is queued again |
| ButexLists.MoveRest | dbrpc/butex.cpp:418-424 | the loop of requeue moves every waiter in order and stores the second butex as its container |
| ButexLists.Butex.Requeue | dbrpc/butex.cpp:407-425 | the first waiter is taken, the others follow those of the second butex in order and name it |
| ButexLists.WakeExceptOrder | dbrpc/butex.cpp:370-398 | wake_except wakes the pthreads in order, then all bthreads from the last to the first |
| ButexLists.WakeOrder | dbrpc/butex.cpp:301-336 | wake_all wakes the pthreads in order, the bthreads from the last to the second, and the first one at the end |
| ButexLists.SplitIsPermutation | dbrpc/butex.cpp:288-298 | wake_all takes every waiter exactly once, by its kind |
| ButexLists.ExceptIsPermutation | dbrpc/butex.cpp:348-367 | wake_except loses no waiter: each is kept or taken, once |
| ButexLists.ExcludedAre | dbrpc/butex.cpp:352-362 | wake_except keeps exactly the waiters with the excluded tid, and nobody if that is 0 |
| IdLock.LockUnlockRoundTrip | docs/client_bthread_sync.md:92-217 | releasing undoes taking, but for an enlarged range, and wakes somebody exactly if the taker has waited before or somebody came to wait |
| IdLock.Id.LockSection | docs/client_bthread_sync.md:92-164 | the lock is taken exactly if it was free, and its release then wakes somebody exactly if the taker has waited before; locked_ver becomes the larger of itself and the end of a valid range, and stays for any other; who must wait leaves a holder that owes a wake and waits on the present value |
| IdLock.Id.UnlockSection | docs/client_bthread_sync.md:191-217 | with a pending error the lock stays held; else it is free for any locker afterwards, and a wake is owed exactly if it was contended |
| IdLock.StepInv | docs/client_bthread_sync.md:77-224 | every step of lockers and unlockers keeps the value, the holder, the places and the list consistent |
| IdLock.MutualExclusion | docs/client_bthread_sync.md:93-122 | in every run at most one thread is between a successful lock and its unlock |
| IdLockProgress.LockedIsLargestRange | docs/client_bthread_sync.md:99-111 | in every run locked_ver is first_ver plus the largest of the initial range and the valid ranges of the locks taken |
| IdLockProgress.LockTakenIffFree | docs/client_bthread_sync.md:93-146 | in every reachable state a thread gets the lock exactly if nobody has it, and else marks it contended and waits for that mark to change |
| IdLockProgress.SleepsIffUnchanged | docs/client_bthread_sync.md:142-152 | at both looks a locker goes on to sleep exactly if the value is unchanged, and else tries again as one that has waited |
| IdLockProgress.InterruptedTriesAgain | docs/client_bthread_sync.md:145-157 | an interrupted sleeper leaves the list and tries again as one that has waited |
| IdLockProgress.InFlightGoesOn | docs/client_bthread_sync.md:150-152 | who is about to sleep can go on, or waits for the list, whose holder can |
| IdLockProgress.SleepersTakeTurns | docs/client_bthread_sync.md:191-224 | from a contended holder every sleeper gets the lock once, in the order of the list, after the pending errors were handled one by one, and only the last still has it |
| IdLockSleepers.StepCovered | docs/client_bthread_sync.md:77-224 | every step but a lock that strands somebody keeps all sleepers, and all who are about to sleep, with somebody who will wake them |
| IdLockSleepers.NobodyAbandoned | docs/client_bthread_sync.md:123-157 | while threads are queued the value is contended, or a wake is pending, or a thread that was contended is awake in the loop |
| IdLockSleepers.QuietMeansNobodySleeps | docs/client_bthread_sync.md:209-221 | when no thread holds the lock, wakes or retries, no thread sleeps on it |
| IdLockSleepers.StrandingLockStrands | docs/client_bthread_sync.md:107-118 | after every lock that takes a value a contender awaits, with nobody else to wake that contender, the run can go on to a sleeper that nobody will wake |
| IdLockSleepers.PlainLocksStrandNobody | docs/client_bthread_sync.md:99-114 | a run in which no lock enlarges locked_ver, such as one of plain bthread_id_lock calls, has no such lock |
| IdLockSleepers.EnlargingCanStrand | docs/client_bthread_sync.md:107-114 | enlarging locked_ver under contention leads to such a lock |
| WriteShape.StepShape | docs/io_write.md:28-305 | every step keeps the shape of the chain: owned part forward, reversed part forward, later requests backward or being linked |
| WriteShape.CasSees | docs/io_write.md:261-271 | the compare-and-swap sees its old head exactly when no request was exchanged after it |
| WriteShape.ReverseAt | docs/io_write.md:281-291 | the reversal stands at a linked request whose predecessor is next, and stops exactly at the old head |
| WriteBytes.ConsumeSplits | docs/io_write.md:162-163 | writing some bytes of a chain cuts just those bytes off its front |
| WriteBytes.FollowOwned | docs/io_write.md:215-219 | following next from any owned request visits the owned chain in exchange order |
| WriteBytes.StepBytes | docs/io_write.md:28-231 | the bytes written and the bytes left are together the data in exchange order, after every step |
| WriteReturns.StepReturns | docs/io_write.md:107-110 | after every step a passed request was returned once or is about to be returned by one thread |
| WriteTheorems.OneWriter | docs/io_write.md:33-53 | at most one thread has the write right, and one has it exactly when the head is not NULL |
| WriteTheorems.WrittenInOrder | docs/io_write.md:85-105 | the connection carries a prefix of the data of all requests in exchange order, and all of it when the head is NULL |
| WriteTheorems.SetupInOrder | docs/io_write.md:295-300 | Setup is called once per request, in exchange order, before any of its bytes is written |
| WriteTheorems.CompleteMeansWritten | docs/io_write.md:215-230 | the swap to NULL succeeds only when every request exchanged so far is written, and then cur_tail is req |
| WriteCompletion.CompleteIff | docs/io_write.md:242-271 | in every reachable state, for StartWrite and KeepWrite, the swap sets the head to NULL exactly if its old head is the request exchanged last and every request is written; then that is the only one owned, and the thread goes on to return it |
| WriteCompletion.IncompleteGoesOn | docs/io_write.md:256-278 | otherwise new requests are reversed, or StartWrite hands over, or KeepWrite goes round with the old head as its tail |
| WriteCompletion.SkipsIffWritten | docs/io_write.md:155-160 | before a write KeepWrite returns its first request exactly if that is written and not the last, and just that one |
| WriteCompletion.ReleasesIffWritten | docs/io_write.md:176-185 | after it, it returns the first request exactly as long as that is so |
| WriteCompletion.CanComplete | docs/io_write.md:142-231 | from every reachable state, without further calls, the queue can get to a NULL head with all bytes written, every request returned once and every thread done |
| WriteTheorems.ReturnedOnce | docs/io_write.md:176-185 | no request is returned twice or before it is written, and when all threads are done every request was returned |
| WriteTheorems.ChainAfterReversal | docs/io_write.md:272-305 | after the reversal the chain is the old list followed by the new requests in exchange order, and its tail is the head the swap saw |
| WriteTheorems.ReversalEnds | docs/io_write.md:281-300 | each step of the reversal and of the Setup loop visits one request, so the loops end |
| WriteTheorems.OthersAddNoWork | docs/io_write.md:276-278 | requests that arrive meanwhile add no work to the reversal |
| WriteTheorems.OwnerProgress | docs/io_write.md:281-285 | the owner can always move, or it spins on a request whose thread can store its link |
| WriteChain.Socket.Push | docs/io_write.md:33-53 | the exchange makes the request the head of the backward chain and tells whether it was the first |
| WriteChain.Socket.IsWriteComplete | docs/io_write.md:242-306 | it completes exactly when nothing is new and the only request is written; otherwise the chain is the owned list and the reversed new segment, Setup is called oldest first, and the tail is the head that was seen |
| WriteChain.ReverseNewer | docs/io_write.md:279-291 | the reversal loop turns the new segment round in place and keeps its data |
| WriteChain.Socket.SetupFrom | docs/io_write.md:295-300 | the loop calls Setup on each request of the list in order |
| WriteChain.Socket.ReleaseWritten | docs/io_write.md:178-184 | the release loop returns the written requests before the first unwritten one, never the last |
| StealScan.ScanCoversIff | dbrpc/task_control.cpp:324-328 | the scan visits every group, once, exactly when the offset is coprime to their number and the seed does not wrap during the scan or their number divides 2^64 |
| StealScan.WrapCanSkipAGroup | dbrpc/task_control.cpp:326-327 | a seed that wraps during the scan can skip a group although the offset is coprime |
| StealTask.Group.TakeOldest | dbrpc/task_control.cpp:330-337 | a group gives the oldest task of its run queue, else of its remote queue, else none |
| StealTask.Steal | dbrpc/task_control.cpp:315-342 | the scan takes one task of the first group that offers one, leaves all else, and stores the seed it stopped at, whatever slots are NULL or hold one group twice |
| StealTask.FailureMeansAllEmpty | dbrpc/task_control.cpp:324-342 | with a scan that covers all groups, finding nothing means that all queues are empty |
| StealTask.StealCoprime | dbrpc/task_control.cpp:315-342 | false exactly when every queue is empty, otherwise one task leaves one queue |
| ParkingCover.StepInv | dbrpc/task_control.cpp:344-374 | every step keeps a worker awake, or the worker that saved its state last responsible for each queue that holds work, and bounds the signals since by the tasks queued |
| ParkingCover.SaveStateInv | dbrpc/task_group.h:191-199 | saving the state before a full scan makes the worker responsible for every queue |
| ParkingCover.EnterWaitInv | dbrpc/task_group.cpp:98-107 | the worker that saved its state last blocks only without work to see to, although its counter may repeat |
| ParkingCover.BumpInv | dbrpc/task_control.cpp:357-367 | increasing the counter of a lot makes its workers that are not blocked look again |
| ParkingCover.WakeNoneInv | dbrpc/task_control.cpp:357-367 | when a signal wakes nobody the call goes on to lots whose workers it still has to signal |
| ParkingCover.NoStrandedWork | dbrpc/task_control.cpp:315-374 | when all workers are blocked, no signal call runs and no nosignal push is unflushed, every run queue and remote queue is empty |
| ParkingTasks.LookTakesOne | dbrpc/task_group.cpp:517-531 | a worker that looks at a queue takes exactly one task and runs it, the newest of its own run queue and the oldest of any other, and goes on without one exactly if the queue is empty |
| ParkingTasks.TasksConserved | dbrpc/task_group.cpp:612-651 | in every run the tasks pushed are those handed to workers and those still queued, each as often |
| ParkingTasks.OneTaskAtATime | dbrpc/task_group.cpp:517-531 | a worker has finished every task it was handed but the one it runs |
| ParkingTasks.RemoteIsFifo | dbrpc/task_control.cpp:330-337 | along every run a remote queue hands out its tasks in the order of the pushes |
| ParkingTasks.BlocksIffUnsignalled | dbrpc/task_group.cpp:98-107 | in every run a worker blocks exactly if the signals to its lot since it saved the state are a multiple of 2^31, and else looks again |
| ParkingTasks.CallBegins | dbrpc/task_group.cpp:612-622 | a push or flush asks for as many wake-ups as it signals pushes, but at most two |
| ParkingTasks.CallServes | dbrpc/task_control.cpp:353-365 | a signal call ends exactly when it woke as many workers as it was asked for or went through all four lots, passing a lot by only if nobody sleeps there |
| ParkingLooking.LookingEnds | dbrpc/task_group.cpp:517-531 | a worker without a task can always go on, and comes closer to a task or to its wait with every step |
| ParkingLooking.LookerGetsTask | dbrpc/task_control.cpp:315-342 | while some queue holds a task, a worker whose scan covers all groups gets one by its own steps |
| ParkingScenes.CounterWrapBlocks | dbrpc/task_group.cpp:104-107 | exactly 2^31 signals between saving and waiting make a worker block with a task queued, although no queue ever holds more than one |
| ScanScenes.IncompleteScanStrands | dbrpc/task_control.cpp:324-328 | for every number of groups, seed and offset whose scan misses a group there is a run that ends with a task queued and everybody asleep |
| ScanScenes.BadOffsetStrands | dbrpc/task_control.cpp:326-327 | so there is for every offset that shares a factor with the number of groups, and for every seed that wraps where it matters |
| ParkingLot.SameWordIff | markdown/Work Stealing以及任务的执行与切换.md:1009-1024 | two states of a lot are equal exactly when a multiple of 2^31 signals and no stop lies between |
| ParkingLot.LooksUnchangedIsSameWord | markdown/Work Stealing以及任务的执行与切换.md:1020-1024 | the comparison of signal counts that the parking protocol uses is the comparison of the words |
| ParkingLot.LowestBitIsStop | markdown/Work Stealing以及任务的执行与切换.md:996-1010 | a state is odd exactly when the lot was stopped, whatever the number of signals |
| ParkingLot.Lot.Signal | markdown/Work Stealing以及任务的执行与切换.md:893-898 | the count grows by the signals, and as many sleepers as possible and asked for are woken |
| ParkingLot.Lot.Wait | markdown/Work Stealing以及任务的执行与切换.md:1018-1024 | wait blocks exactly when neither a stop nor, up to a multiple of 2^31, a signal came since the state was saved |
| ParkingLot.Lot.Stop | markdown/Work Stealing以及任务的执行与切换.md:1070-1074 | stop makes the lot unwaitable for ever and wakes its sleepers, 10000 at most |
| GroupArray.AddedMembers | dbrpc/task_control.cpp:252-256 | a new group is registered exactly if there is room, the others stay where they are |
| GroupArray.RemovedMembers | dbrpc/task_control.cpp:280-300 | a removal takes out just that group and keeps the registered prefix free of duplicates |
| GroupArray.Registry.Add | dbrpc/task_control.cpp:244-262 | the registered prefix gets the group at its end; refused for NULL and after stop |
| GroupArray.Registry.Delete | dbrpc/task_control.cpp:277-300 | the loop finds the group and swaps the last one into its slot, and writes no other slot |
| GroupReaders.StepInv | dbrpc/task_control.cpp:251-300 | every store of a registration or removal, and every load and visit of a scan, keeps the registered groups in the counted slots and in reach of the scan |
| GroupReaders.CountedSlots | dbrpc/task_control.cpp:284-297 | the counted slots hold every registered group at any moment, and one twice exactly between the two stores of a removal from a slot that is not the last |
| GroupReaders.ReaderSeesSurvivors | dbrpc/task_control.cpp:284-297 | a scan that visits each index below the length it loaded sees every group that stays registered, in any order and at any time, unless an addition overwrote a copy that it had still to visit |
| GroupReaders.HiddenByAdditionIff | dbrpc/task_control.cpp:292-295 | of all stores just an addition can put a registered group out of reach of a scan, and just by overwriting the last copy before it |
| GroupReaders.AdditionHidesIff | dbrpc/task_control.cpp:292-295 | an addition makes the scan miss a group exactly if it overwrites the last copy that the scan had still to visit |
| GroupReaders.AdditionCanHideGroup | dbrpc/task_control.cpp:292-295 | a run in which an addition hides a registered group from a scan |
| GroupReaders.CountFirstLosesGroup | dbrpc/task_control.cpp:285-297 | with the two stores of a removal swapped, a scan can miss a registered group without any addition |
| RunQueue.SignalsConserved | dbrpc/task_group.cpp:612-663 | every push through ready_to_run is in the signaled or the nosignal counter, and what signal_task is told adds up to the signaled counter |
| RunQueue.TasksConserved | dbrpc/task_group_inl.h:64-80 | the tasks taken and those still queued are, as multisets, those queued before and those pushed, and the queue never exceeds its capacity |
| RunQueue.CountedQueue.FlushNosignalTasks | dbrpc/task_group.cpp:624-631 | a flush leaves no push quiet, keeps the number of pushes counted, and tells signal_task what it counts as signaled |
| RunQueue.CountedQueue.Attempt | dbrpc/task_group.cpp:633-651 | a successful push is counted once and may stay quiet only if it is a nosignal one, a failed one leaves none quiet, and signal_task is told what is counted as signaled |
| RunQueue.CountedQueue.ReadyToRun | dbrpc/task_group.cpp:612-651 | attempts and sleeps follow each other exactly until an attempt finds room, whatever others do in between, and the counters and queue end as after these operations |
| SchedSteps.StepInv | dbrpc/task_group.cpp:226-601 | every step of creating, suspending, picking, switching, landing and waking keeps places and stacks consistent |
| SchedSteps.SwitchInv | dbrpc/task_group.cpp:477-601 | the switch, with or without passing the stack on, keeps them consistent |
| SchedSteps.LandInv | dbrpc/task_group.cpp:586-591 | so does every callback |
| SchedTheorems.OnePlace | dbrpc/task_group.cpp:330-382 | a live thread is in exactly one place: current, picked, left to a callback, or once in one list |
| SchedTheorems.FreeIsNowhere | dbrpc/task_group.cpp:318-328 | a slot that was returned is in no list and has no stack |
| SchedTheorems.OneWorkerPerTask | dbrpc/task_group.cpp:530-592 | no thread runs on two workers and no two workers run on one stack |
| SchedTheorems.MainStaysHome | dbrpc/task_group.cpp:483-487 | a main thread is never queued and never left to a callback |
| SchedTheorems.OneOwner | dbrpc/task_group.cpp:495-512 | every stack but a main stack belongs to at most one thread, and no pooled stack to any |
| SchedTheorems.NoStackLost | dbrpc/task_group.cpp:318-328 | every stack that was given out is held by the thread it was given to |
| SchedTheorems.SlotIsFree | dbrpc/task_group.h:73-77 | the callback slot is empty whenever a thread runs, so set_remained overwrites nothing |
| SchedTheorems.CallbackAfterSwitch | dbrpc/task_group.cpp:586-591 | when a callback runs, its thread is on no processor and nobody runs on its own stack |
| SchedTheorems.ReturnedStackUnused | dbrpc/task_group.cpp:318-328 | _release_last_context gives back no stack that a worker runs on or a thread has |
| SchedTheorems.SameStackIsMain | dbrpc/task_group.cpp:566-580 | two threads that follow each other without a jump are on the main stack, unless the stack was passed on |
| SchedTheorems.NewTaskHasNoStack | dbrpc/task_group.cpp:351-351 | a new thread has no stack of an earlier life of its slot |
| SchedTheorems.QueuedTaskReady | dbrpc/task_group_inl.h:46-62 | a queued thread is no main thread and has its own stack or none yet |
| SchedDestinations.SuspendedGoesTo | dbrpc/task_group.cpp:585-591 | whatever happens between the suspension of a thread and the next callback of its group, that callback brings it to the timers if it slept and a timer was scheduled, to the butex it waits on if the value was unchanged, to the run queue if it yielded, started another or was exchanged, and nowhere if it ended |
| SchedDestinations.InNoListMeanwhile | dbrpc/task_group.cpp:751-755 | until then it is in no list |
| SchedDestinations.ChosenRuns | dbrpc/task_group.cpp:517-531 | the thread a group chose is the one it runs after its next callback |
| SchedDestinations.MainStackOnlyIfNoOther | dbrpc/task_group.cpp:477-515 | the next thread runs on its own stack, else on that of an ended one of its type, else on the main stack exactly if no stack can be had |
| SchedDestinations.KindIsGiven | dbrpc/task_group.cpp:495-512 | a thread keeps the stack type it was created with until no stack can be had for it, and is then a pthread task |
| SchedDestinations.SwitchGoesOn | dbrpc/task_group.cpp:517-531 | a group that has begun to leave a thread can always go on to the next |
| SchedDestinations.QueuedTaskCanRun | dbrpc/task_group.cpp:125-135 | from every reachable state each queued thread can come to run on each group |
| SchedDestinations.ArrivesAtEnd | dbrpc/task_group_inl.h:64-80 | a new or moved thread is at the end of its list |
| Sleep.StepInv | dbrpc/task_group.cpp:696-847 | every step of sleeper, callback, timer and interrupters keeps one claim on each unfinished sleep |
| SleepTheorems.ResumedExactlyOnce | dbrpc/task_group.cpp:710-747 | each sleep is made runnable at most once, and exactly once before usleep goes on |
| SleepTheorems.ResumesInEpisode | dbrpc/task_group.cpp:702-706 | whoever resumes a sleeper does so in the sleep it is in, while its arguments are still on its stack |
| SleepTheorems.SleeperNotForgotten | dbrpc/task_group.cpp:710-747 | as long as a sleeper was not made runnable, the holder of its claim can act |
| SleepTheorems.InterruptReachesSleeper | dbrpc/task_group.cpp:718-747 | an interrupted sleeper with a pending timer is about to be woken, by its callback or by an interrupter that has the timer, exactly unless a callback of an earlier sleep wrote current_sleep after that of the present sleep was done |
| SleepTheorems.InterruptFindsTimerIff | dbrpc/task_group.cpp:775-792 | an interrupt of a sleeper whose callback is done takes its timer exactly under the same condition |
| SleepTheorems.InterruptWinsIff | dbrpc/task_group.cpp:833-847 | an interrupter wins exactly when it took the timer of the present sleep and it has not fired |
| SleepTheorems.StaleSleepLosesInterrupt | dbrpc/task_group.cpp:728-735 | a run in which a late write of current_sleep makes an interrupt wake nobody |
| SleepProgress.FlagIsPending | dbrpc/task_group.cpp:807-811 | in every run the flag says whether an interruption came since the last return from usleep |
| SleepProgress.ReportedOnce | dbrpc/task_group.cpp:757-768 | usleep fails at most once for each interruption |
| SleepProgress.CurrentSleepIsLastPublished | dbrpc/task_group.cpp:720-786 | current_sleep is the timer published last, and none once that sleep has returned or an interrupter has taken it |
| SleepProgress.PublishedIffNotInterrupted | dbrpc/task_group.cpp:720-728 | the callback publishes its timer exactly if the task was not interrupted and has not ended |
| SleepProgress.UninterruptedSleepsItsTime | dbrpc/task_group.cpp:702-742 | a sleep that begins without a pending interruption and is not interrupted is ended by its own timer only |
| SleepProgress.SleepCanReturn | dbrpc/task_group.cpp:702-770 | from every reachable state a sleep can return |
| Join.StepInv | dbrpc/task_group.cpp:290-308 | every step of the ending thread and of its joiners keeps the invariant |
| Join.ZeroExcludesNobody | dbrpc/butex.cpp:352-362 | wake_except with tid 0 keeps no waiter, although pthreads have tid 0 |
| Join.JoinedAfterEnd | dbrpc/task_group.cpp:449-459 | join returns 0 only after the function of that very thread ended and its keytable was returned |
| Join.NoJoinerLeftBehind | dbrpc/task_group.cpp:302-308 | a queued joiner waits for a thread that is alive or is about to wake it |
| Join.WakeReachesAll | dbrpc/task_group.cpp:308-308 | the wake at the end of a thread leaves no joiner queued |
| JoinProgress.JoinedIffEnded | dbrpc/task_group.cpp:449-459 | a test lets join return exactly if the ends since the joined thread are no multiple of 2^32 - 1, so exactly if it has ended, unless the versions have come round |
| JoinProgress.SleepsIffAlive | dbrpc/task_group.cpp:450-455 | a joiner is queued, last, exactly if its thread has not ended |
| JoinProgress.JoinCanReturn | dbrpc/task_group.cpp:302-308 | from every reachable state each join that was not refused can return without being interrupted |
| Tids.TidRoundTrip | dbrpc/task_group_inl.h:10-21 | get_slot inverts make_tid exactly for 32-bit slots, and get_version exactly if every bit set among bits 32 to 63 of the slot is set in the version |
| Tids.WideSlotSpoilsVersion | dbrpc/task_group_inl.h:10-21 | a wider slot can change the version that is read back |
| Tids.VersionAfterIs | dbrpc/task_group.cpp:304-306 | versions go round all nonzero 32-bit values |
| Tids.TidNeverZero | dbrpc/task_group.cpp:299-306 | no tid that is given out is 0 |
| Tids.TidRecurs | dbrpc/task_group.cpp:302-307 | a tid comes back in its slot after every 2^32 - 1 ends and only then |
| Tids.MatchesCurrent | dbrpc/task_group.cpp:462-470 | a tid is matched exactly when a multiple of 2^32 - 1 threads ended in its slot since |
| Tids.TaskMeta.End | dbrpc/task_group.cpp:302-307 | ending a thread moves its slot to the next version |
| Tids.TaskMeta.Exists | dbrpc/task_group.cpp:462-470 | exists is true for the present thread of the slot and false for stale tids |
| Tids.TaskMeta.IsStopped | dbrpc/task_group.cpp:84-96 | a stale tid counts as stopped |
| Tids.TaskMeta.SetStopped | dbrpc/task_group.cpp:73-82 | a stale tid stops nobody |
| Tids.TaskMeta.GetAttr | dbrpc/task_group.cpp:59-71 | a stale tid has no attributes |
| BlockAlloc.StepInv | docs/resource_pool.md:156-208 | every step of concurrent add_block calls keeps nblock equal to the winners and the failures in flight |
| BlockAlloc.FetchAddWins | docs/resource_pool.md:193-201 | in every run, while a group has room, fetch_add returns the number of slots already won |
| BlockAlloc.BlockAtIndex | docs/resource_pool.md:195-200 | the block that a call added is in the slot its index names, however the run goes on |
| BlockAlloc.IndexGivenOnce | docs/resource_pool.md:181-208 | no two calls of a run return the same index |
| BlockProgress.WinsIffRoom | docs/resource_pool.md:193-201 | in every reachable state a call wins the next slot of its group exactly if a slot is left |
| BlockProgress.FailsIff | docs/resource_pool.md:156-207 | add_block fails exactly if there is no memory for its block, or if nobody has added a group since it looked and none can be added |
| BlockProgress.AddBlockSucceedsIffRoom | docs/resource_pool.md:181-208 | a call that looks at the groups alone and has memory returns the next index exactly if a slot or a group is left |
| BlockProgress.EveryCallEnds | docs/resource_pool.md:181-208 | however calls interleave, each can end by itself, with a block unless there are as many groups as there may be |
| Bits.ShiftAndMask | docs/resource_pool.md:144-149 | shifting and masking split a block index into group and slot |
| PoolAddress.AddressInverts | docs/resource_pool.md:143-150 | the address of an id is that of the block and item the id was made for |
| PoolAddress.AddressDetermines | docs/resource_pool.md:143-150 | every id is that of its address |
| PoolAddress.AddressInjective | docs/resource_pool.md:143-150 | two ids never share an address |
| PoolTheorems.StepInv | docs/resource_pool.md:84-255 | every step of get and return keeps each id in one place and each block with one thread |
| PoolTheorems.NextIdIsNew | docs/resource_pool.md:109-122 | the next item of a block was never handed out before |
| PoolTheorems.OnePlacePerId | docs/resource_pool.md:84-134 | an id that was ever created is live or once in one free list, and never both |
| PoolTheorems.NoIdLost | docs/resource_pool.md:238-255 | once created an id stays live or free, however the run goes on |
| PoolTheorems.GetIsFresh | docs/resource_pool.md:84-134 | get_resource never hands out an id that is live |
| PoolTheorems.ChunksAreFull | docs/resource_pool.md:214-232 | a popped chunk always has an id to take |
| PoolTheorems.AddressOfCreated | docs/resource_pool.md:143-150 | the address of a created id lies in a block that was added |
| PoolProgress.HandsOverOne | docs/resource_pool.md:84-255 | a get makes exactly the id it returns live, which nobody had, and a return that does not fail takes exactly its id out |
| PoolProgress.GetsAreReturnsAndLive | docs/resource_pool.md:84-255 | in every run the ids handed out are, by number, those taken back and those live |
| PoolProgress.RejectedIsNextAgain | docs/resource_pool.md:115-121 | an item that the validator rejects is not used up |
| PoolProgress.LooksForFreeFirst | docs/resource_pool.md:84-107 | get_resource uses the local list, else a chunk, and creates an id only if both are empty |
| PoolProgress.GetCanSucceed | docs/resource_pool.md:84-138 | from every reachable state get_resource returns an id if one is free, the block of the thread has room or a block can be added |
| PoolHeap.LocalPool.Get | docs/resource_pool.md:84-138 | local free id, else last of a global chunk, else next item, else first item of a new block, with the new free list |
| PoolHeap.LocalPool.Return | docs/resource_pool.md:238-255 | the id is last in the local list, a full list becomes a chunk first, and nothing changes on failure |

## Left out

- Assembly context switches, stack memory and guard pages: a switch changes the current thread and the stack it runs on.
- The work-stealing queue, the remote queue, the timer thread, the fast mutex and the kernel futex: their sources are not shown.
- Weak memory orders: every atomic access is one sequentially consistent step.
- The failure paths of the write queue, connecting and SSL sessions: DoWrite writes any number of bytes, and a write that is put in the background starts KeepWrite.
- `bthread_id` destruction and the contents of its error callbacks: with a pending error the lock stays held.
- Stopping the runtime beyond one parking lot, adding workers, and counters for display.
- The error code of a pthread's `butex_wait`, and ESTOP in place of EINTR: the models say why a wait ended. Waits and sleeps that return before they begin: a deadline that is over, a stopped timer thread, a sleep of 0.
- SchedDestinations.SwitchGoesOn: needs that the run queues and the list of timers exist, which no event changes; so does SchedDestinations.QueuedTaskCanRun.
- ParkingLooking.LookerGetsTask: is for a worker that searches alone, and for scans that cover all groups; with others at work the task may go to one of them.
- ButexProgress.EveryWaitCanReturn: needs one thread that is in no call, to wake a waiter whose condition nobody else signals.
- `bthread_id_join`: it waits for the destruction of the id.
- ParkingCover.NoStrandedWork: holds for a fixed set of groups, for scans that cover them all, and while fewer than 2^30 tasks are queued and fewer than 2^30 signal calls run; a signal call runs beside the worker that made it, which allows more interleavings than the code, and it counts as running from the push that it belongs to.
- ParkingCover.StepInv: needs the same conditions on the state.
- StealScan.ScanCoversIff: is for offsets whose product with the number of groups is below 2^64; the table that offsets are drawn from (`dbrpc/task_group.cpp:56`) is not part of this model.
- GroupReaders.ReaderSeesSurvivors: has one scan at a time; scans do not influence each other.
- IdLock.MutualExclusion: holds also with error callbacks pending, but not across destruction of the id, which is not modelled.
- IdLockSleepers.NobodyAbandoned: holds for runs without a lock that strands a contender.
- ButexTheorems.NoLostWakeup: is about butexes that are no target of a requeue and that are changed only by a store followed by wake_all.
- RunQueue.CountedQueue.ReadyToRun: the caller bounds the number of sleeps; where it reports that no attempt found room, the code is still retrying.
- ButexLists.Butex.TakeExcept: needs that at most one waiter has the excluded tid, since the code remembers one.
- JoinProgress.JoinCanReturn: is, like Join.NoJoinerLeftBehind, for less than 2^32 - 1 threads ending in the slot since the joined one.
- Join.NoJoinerLeftBehind: is for less than 2^32 - 1 threads ending in the slot since the joined one.
- PoolProgress.GetCanSucceed: is for memory to be had and items that the validator accepts.
- BlockProgress.EveryCallEnds: needs that a group has at least one slot.
- PoolTheorems.NoIdLost: does not model the destruction of a thread's local pool.

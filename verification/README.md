# A verified model of the FreeRTOS kernel and its heap

This project models the FreeRTOS V10.4.6 kernel kept in this repository together with its heap, and
proves what the kernel's own comments and design rely on. Preemption and time slicing are on, task
selection is the generic one, `INCLUDE_vTaskSuspend` and mutexes are on; queue sets and tickless idle
are off. `dafny verify dfyconfig.toml` checks everything.

The kernel is sequential C that changes linked lists, rings and wrapping counters in place. Each part
is modelled twice. Functions on values say what an operation does, and lemmas about them state the
properties, over whole runs wherever the property spans operations. Classes hold the fields of the
source and update them step by step, with the loops of the source, and every method is proved to do
what the function says. Where interrupts or several tasks interleave, the model is a state machine
whose steps end at the boundaries of critical sections.

| files | part |
|---|---|
| `Rings.dfy`, `KernelList.dfy` | list.c: circular lists in memory, the roving index, fairness |
| `Clock.dfy`, `TimeOut.dfy`, `DelayUntil.dfy` | the wrapping tick counter against unbounded time; time outs |
| `TaskLists.dfy`, `Scheduler.dfy`, `TaskControl.dfy`, `TaskRuns.dfy`, `TickReplay.dfy`, `RoundRobin.dfy`, `TaskScheduler.dfy` | tasks.c: lists of tasks, ticks, suspension, selection and turns, whole runs |
| `Inheritance.dfy`, `MutexTasks.dfy` | mutexes and priority inheritance (tasks.c, queue.c) |
| `Queue.dfy`, `QueueLock.dfy` | queue.c: the ring of items; waiting and the lock counts |
| `Timers.dfy` | timers.c: the daemon, its two lists and its commands |
| `Messages.dfy`, `StreamBuffer.dfy`, `StreamRace.dfy` | stream_buffer.c: framing, the buffer, one writer against one reader |
| `EventGroup.dfy` | event_groups.c |
| `HeapBlocks.dfy`, `HeapMemory.dfy`, `Heap.dfy` | heap_4.c: blocks, headers in memory, the allocator |

Time is an unbounded count of ticks; the kernel sees it through a counter with `M` values, and `M` is a
parameter everywhere, so that 16-bit and 32-bit ticks are both covered.

Some natural claims are stronger than the code. For these the exact condition is proved:

- A time-out check made a whole turn of the counter late can miss the end of the wait
  (`TimeOuts.VerdictIsRightUnless`, `TimeOuts.MissedTurn`).
- Overwriting a full queue whose items have no bytes counts one item too many, because
  `prvCopyDataToQueue` looks at the item size first; every other call refines a double-ended queue
  (`Queues.CallRefinesIff`, `Queues.OverwrittenSemaphore`).
- Resetting a queue wakes one sender although all slots become free (`QueueLocks.ResetLosesUnless`,
  `QueueLocks.ResetForgetsSender`).
- The rules of inheritance (no holder below its base or a waiter, wait lists in the order of the
  priorities) are broken by exactly the events that do not meet `Inheritance.Fits`
  (`Inheritance.StepKeepsIff`). Runs from the start show how: a less important task takes a freed mutex
  (`Inheritance.LessImportantTakes`); a base priority is set below a waiter or above the priority in use
  (`Inheritance.BaseBelowWaiter`, `Inheritance.BaseAboveUse`); a holder that waits itself passes no
  priority on (`Inheritance.ChainIsNotFollowed`); and setting the base of a task that waits with an
  inherited priority leaves its event item with the wrong value, so that the wait list is out of order
  and a time-out lowers the holder too far (`Inheritance.StaleItemMisleads`).
- A mutex give that wakes a waiter loses the yield request of the disinheritance: the running task is
  still the highest exactly if it did not fall below a ready task (`Mutexes.GiveKeepsHighestIff`,
  `Mutexes.GiveForgetsYield`).
- The heap's size test counts all free bytes, not the largest block; it rejects nothing that fits
  (`Heaps.EarlyTestIsRight`), and whether a request is served is decided by the search alone
  (`Heaps.Heap.Malloc`).

## Model

| member | source | states |
|---|---|---|
| `KernelList.ListMemory.InitialiseList` | freertos/list.c:50-72 | an empty circle through the end marker, whose value is portMAX_DELAY; the other lists in memory are as before |
| `KernelList.ListMemory.InitialiseItem` | freertos/list.c:75-84 | the item is in no list; all lists are as before |
| `KernelList.ListMemory.InsertEnd` | freertos/list.c:87-114 | the writes of next, previous, container and count make the list the same ring with the item placed just before the index; every other list is untouched |
| `KernelList.ListMemory.FindNode` | freertos/list.c:135-172 | the search ends, at the node behind all values that are not larger, also for portMAX_DELAY |
| `KernelList.ListMemory.Insert` | freertos/list.c:117-185 | the item is placed behind all values that are not larger; container, count and links agree |
| `KernelList.ListMemory.Remove` | freertos/list.c:188-214 | the item is gone, its neighbours are joined, the index falls back if it pointed at it, and the number of items left is returned |
| `KernelList.ListMemory.NextEntry` | freertos/include/list.h:281-292 | the index moves to the next item, stepping over the end marker, and that item is returned |
| `KernelList.InsertKeepsOrder` | freertos/list.c:124-172 | vListInsert keeps a sorted list sorted and is stable for equal values |
| `KernelList.SplicedRepresents` | freertos/list.c:98-113 | the six writes of an insertion represent the insertion in the sequence, for all lists that share the memory |
| `KernelList.UnsplicedRepresents` | freertos/list.c:188-214 | the same for a removal, wherever the index points |
| `Rings.SortedPlaceIsStable` | freertos/list.c:135-172 | which values end up in front of a new one and which behind |
| `Rings.FairShare` | freertos/tasks.c:147-149 | between two consecutive selections of a task every other task that stays listed is selected exactly once, whatever is inserted and removed meanwhile |
| `Clock.CounterIsModular` | freertos/tasks.c:2749-2759 | the counter that goes up by one and wraps, and the count of its wraps, are t mod M and t div M |
| `Clock.LaterTick` | freertos/tasks.c:5352-5366 | less than one turn later the epoch is the same or the next, and comparing the counters tells which |
| `TimeOuts.TimeOut.CheckForTimeOut` | freertos/tasks.c:3322-3384 | verdict, time left and new reference point in every branch, including an aborted delay and portMAX_DELAY |
| `TimeOuts.CheckIsExact` | freertos/tasks.c:3355-3380 | a check less than a turn after the reference measures exactly, across a wrap |
| `TimeOuts.ChecksTelescope` | freertos/tasks.c:3322-3384 | over any sequence of checks elapsed time and time left add up to the block time, and the first check at or after its end is the one that times out |
| `TimeOuts.ForeverNeverEnds` | freertos/tasks.c:3346-3354 | a block time of portMAX_DELAY never times out |
| `TimeOuts.VerdictIsRightUnless` | freertos/tasks.c:3355-3380 | with checks any time apart: the exact condition under which the verdict is still right |
| `TimeOuts.MissedTurn` | freertos/tasks.c:3355-3380 | a concrete wait whose end is missed |
| `DelaysUntil.DelayUntil` | freertos/tasks.c:1259-1339 | whether xTaskDelayUntil waits, for how long, and the next wake time, in absolute time |
| `TaskLists.UnlinkKeeps` | freertos/tasks.c:221-225 | taking an item off its list keeps containers and lists consistent |
| `TaskLists.LinkSortedKeeps` | freertos/tasks.c:5370-5384 | the delayed lists stay sorted and consistent |
| `Schedulers.BlockGood` | freertos/tasks.c:5312-5384 | blocking moves the running task to the delayed, the overflow or the suspended list as the wake time says, and keeps all invariants |
| `Schedulers.EmptyWhenSwitched` | freertos/tasks.c:201-213 | the delayed list is empty whenever the lists are switched, so the assertion never fires |
| `Schedulers.TickEffect` | freertos/tasks.c:2736-2846 | a processed tick makes ready exactly the tasks that are due and leaves every other where it is; xNextTaskUnblockTime exceeds no wake time on the current list |
| `Schedulers.IncrementTickGood` | freertos/tasks.c:2736-2906 | a tick interrupt keeps the invariants in every suspension state |
| `Schedulers.ResumeAllGood` | freertos/tasks.c:2220-2329 | so does resuming, with pending tasks and ticks to make up for |
| `Schedulers.ResetUnblockGood` | freertos/tasks.c:4008-4026 | the recorded unblock time is the least wake time on the list, or portMAX_DELAY if it is empty |
| `TaskControl.SwitchContextRight` | freertos/tasks.c:136-151 | the selection ends at a ready task that no ready task exceeds, provided that some task is ready; with the scheduler suspended it is only noted |
| `RoundRobin.TasksTakeTurns` | freertos/tasks.c:136-151 | round robin over whole runs of the scheduler: between a selection of a task and its next one every other task that stays ready at its priority is selected exactly once, whatever becomes ready, blocks, is suspended, created or deleted meanwhile |
| `RoundRobin.StepBecomes` | freertos/tasks.c:147-230 | every kernel event changes each ready list as additions, removals and selections of a ring do, selects what the ring selects, and takes off no task but the one it is about |
| `TaskControl.RemoveFromEventListGood` | freertos/tasks.c:3185-3250 | the freed task waits for no event and is ready, or is pending and stays on its list while the scheduler is suspended; every other task keeps its list and event; invariants are kept |
| `TaskControl.RemoveFromUnorderedEventListGood` | freertos/tasks.c:3253-3299 | the freed task is ready at once and waits for no event; every other task keeps its list and event; invariants are kept |
| `TaskControl.SuspendGood` | freertos/tasks.c:1716-1790 | the task is on the suspended list and waits for no event; the other tasks and all priorities stay; invariants are kept |
| `TaskControl.ResumeGood` | freertos/tasks.c:1868-1914 | exactly a task that is really suspended becomes ready; events and priorities stay |
| `TaskControl.CreateGood` | freertos/tasks.c:1071-1125 | the new task is ready at its priority and waits for no event; the other tasks stay; it is counted |
| `TaskControl.DeleteGood` | freertos/tasks.c:1157-1240 | the task is on no list any more, or on the termination list if it deleted itself, and waits for no event; the other tasks stay; the count follows |
| `TaskControl.CleanUpGood` | freertos/tasks.c:3700-3725 | the first task that deleted itself is forgotten and no longer counted; tasks on other lists stay |
| `TaskControl.ChangePriorityGood` | freertos/tasks.c:1666-1690 | exactly this priority changes; a ready task stays ready, on the list of its new priority; lists of other tasks and all events stay |
| `TaskRuns.StepGood` | freertos/tasks.c:1071-3299 | every event keeps the invariants |
| `TaskRuns.IdleStaysReady` | freertos/tasks.c:136-151 | the idle task stays ready, so there is always a task to select |
| `TaskRuns.PartitionOfTasks` | freertos/tasks.c:1071-1252 | in every reachable state each task is on exactly one list, a ready one on that of its priority, no ready priority exceeds uxTopReadyPriority, and the task count is right |
| `TaskRuns.TicksRefineTime` | freertos/tasks.c:2736-2776 | after any run no more ticks are pended than interrupts came, and xTickCount and xNumOfOverflows are remainder and quotient by M of the difference |
| `TaskRuns.StepTimed` | freertos/tasks.c:2278-2306 | an interrupt adds one to processed plus pended ticks, nothing else does |
| `TaskRuns.TickWakes` | freertos/tasks.c:2749-2846 | the tick that reaches the wake time makes the task ready, no earlier one does, across wraps |
| `TaskRuns.WakesOnTime` | freertos/tasks.c:2736-2846 | over any run that does not free, suspend, resume or delete it, whatever happens to its priority, a task blocked for d ticks at time T is not ready before T + d and is made ready by the event that processes that tick |
| `TickReplay.ReplayIsExact` | freertos/tasks.c:2220-2329 | n ticks while suspended followed by xTaskResumeAll give the same tick count, overflows, delayed lists and ready sets as n ticks at once, with any context switches between |
| `TickReplay.TickKeepsHighest` | freertos/tasks.c:2818-2846 | if a tick asks for no switch the running task is still a most important ready one |
| `TickReplay.ResumeKeepsHighest` | freertos/tasks.c:2239-2318 | the same for xTaskResumeAll when it leaves no yield pending |
| `TickReplay.FreeKeepsHighest` | freertos/tasks.c:3235-3247 | the same for xTaskRemoveFromEventList |
| `TickReplay.TickAsksExactly` | freertos/tasks.c:2826-2890 | a processed tick asks for a switch if and only if a yield was pending, another task is ready at the priority of the running task (time slicing), or a task at least as important became ready in this tick |
| `TickReplay.ResumeAsksExactly` | freertos/tasks.c:2239-2318 | xTaskResumeAll leaves a switch asked for if and only if one was, a task at least as important as the running one became ready by it, or ticks were made up for and the priority of the running task is shared |
| `TickReplay.ResumeMovesExactly` | freertos/tasks.c:2237-2276 | every task that an event freed meanwhile is ready after xTaskResumeAll; without ticks to make up for no other task moves |
| `TickReplay.FreeAsksExactly` | freertos/tasks.c:3233-3299 | freeing a task asks for a switch if and only if the running task is no longer a most important one; while suspended, exactly if the freed task is above it |
| `TaskSchedulers.TaskScheduler.AddCurrentTaskToDelayedList` | freertos/tasks.c:5312-5384 | the writes of the source equal the function on values |
| `TaskSchedulers.TaskScheduler.IncrementTick` | freertos/tasks.c:2736-2906 | counter, list switch, the loop over the delayed list and the result that asks for a switch |
| `TaskSchedulers.TaskScheduler.UnblockExpired` | freertos/tasks.c:2776-2846 | the loop ends having made ready the due tasks, with the next unblock time set |
| `TaskSchedulers.TaskScheduler.ResumeAll` | freertos/tasks.c:2220-2329 | both loops, and whether a yield took place |
| `TaskSchedulers.TaskScheduler.SwitchContext` | freertos/tasks.c:3021-3075 | the selected task and the lowered uxTopReadyPriority |
| `TaskSchedulers.TaskScheduler.RemoveFromEventList` | freertos/tasks.c:3185-3250 | new state and result |
| `TaskSchedulers.TaskScheduler.RemoveFromUnorderedEventList` | freertos/tasks.c:3253-3299 | new state |
| `TaskSchedulers.TaskScheduler.Suspend` | freertos/tasks.c:1716-1790 | new state |
| `TaskSchedulers.TaskScheduler.Resume` | freertos/tasks.c:1868-1914 | new state and whether to yield |
| `TaskSchedulers.TaskScheduler.Delete` | freertos/tasks.c:1157-1223 | new state |
| `TaskSchedulers.TaskScheduler.UsePriority` | freertos/tasks.c:1666-1690 | uxPriority and the move between the ready lists |
| `TaskSchedulers.TaskScheduler.PlaceOnEventList` | freertos/tasks.c:3099-3120 | new state of the running task |
| `Inheritance.StepKeepsIff` | freertos/tasks.c:4076-4345 | an event keeps the rules of inheritance if and only if it meets a condition on the state before it, for tasks that wait and tasks that do not |
| `Inheritance.ChangedKeepsIff` | freertos/tasks.c:1630-1660 | a task may get another priority exactly if that lies between the tasks waiting for its mutexes and the holders it waits for, it keeps its place on its wait list, and its event item says so |
| `Inheritance.TakeKeepsIff` | freertos/queue.c:1531-1547 | taking a free mutex: exactly when the new holder is not below a waiter |
| `Inheritance.WaitKeepsIff` | freertos/queue.c:1629-1648 | waiting raises the holder and keeps all rules exactly when the waiter's item stands for its priority and a holder that is raised while it waits itself stays within its own holder and its place |
| `Inheritance.KeyOrder` | freertos/tasks.c:4094-4097 | the order of event item values is the reverse order of the priorities they stand for |
| `Inheritance.InsertOrdered` | freertos/tasks.c:3099-3120 | the place that vListInsert finds by item value is the place by priority |
| `Inheritance.GiveKeeps` | freertos/queue.c:2176-2180 | giving the last mutex returns the holder and its item to its base, giving another one changes no priority |
| `Inheritance.GiveUpKeepsIff` | freertos/queue.c:1678-1699 | after a time-out the holder of one mutex runs at the higher of its base and what the first item on the list says; right exactly when the holder keeps its place if it waits itself |
| `Inheritance.FirstIsHighest` | freertos/queue.c:2135-2155 | with the items right, the first item on the list tells the highest waiting priority |
| `Inheritance.SetPriorityKeepsIff` | freertos/tasks.c:1630-1660 | vTaskPrioritySet: exactly when no waiter and no holder is passed and the place is kept or, for an inherited priority, the new base is not above it and, if the task waits, equal to it |
| `Inheritance.InheritanceIsRight` | freertos/tasks.c:4076-4345 | over all runs of events that meet their conditions uxMutexesHeld is the number of mutexes held, no holder is below its base or a waiter, wait lists are in priority order, and a task without mutexes runs at its base |
| `Inheritance.FreeTaskFits` | freertos/tasks.c:4206-4211 | a task that holds nothing always has an item that stands for its priority |
| `Inheritance.TakeIsExact` | freertos/tasks.c:4689-4701 | taking a free mutex adds it to those of the task and changes no priority or event item |
| `Inheritance.WaitIsExact` | freertos/tasks.c:4076-4160 | the holder runs at the higher of its priority and the waiter's, no other priority or base changes, the waiter is added to the list, and inheritance is reported if and only if the base of the holder is below the waiter |
| `Inheritance.WaitsBehindEquals` | freertos/tasks.c:3099-3120 | with the conditions met, the tasks in front of the new waiter are exactly those at least as important |
| `Inheritance.GiveIsExact` | freertos/tasks.c:4166-4239 | the giver of its last mutex is back at its base, the giver of another keeps its priority, nobody else's changes, and a change is what is reported |
| `Inheritance.FirstLeaves` | freertos/queue.c:909-915 | the first waiter leaves the list, the others stay in order |
| `Inheritance.GiveUpIsExact` | freertos/tasks.c:4246-4345 | after a time-out the holder of this mutex alone goes down to the least priority not below its base or a waiter; a holder of several keeps its priority |
| `Inheritance.ChangeBaseIsExact` | freertos/tasks.c:1550-1697 | the base becomes the priority asked for, cut off at the highest; the priority in use follows if it was the base; the event item stands for the new base unless it is in use |
| `Inheritance.StaleItemMisleads` | freertos/tasks.c:1655-1660 | a run in which the base of a waiting task with an inherited priority is set, after which a time-out leaves a holder below that task |
| `Inheritance.ChainIsNotFollowed` | freertos/tasks.c:4091-4126 | a run after which raising a holder that waits itself leaves the holder it waits for below it |
| `Inheritance.LessImportantTakes` | freertos/queue.c:1531-1547 | a run in which the giver takes the mutex again and holds it below the next waiter |
| `Inheritance.BaseAboveUse` | freertos/tasks.c:1635-1647 | a run in which a base is set above the priority in use |
| `Inheritance.BaseBelowWaiter` | freertos/tasks.c:1635-1647 | a run in which a base is set below a waiter |
| `Mutexes.PrioritySetKeepsHighest` | freertos/tasks.c:1587-1629 | if vTaskPrioritySet asks for no switch the running task is still a most important ready one |
| `Mutexes.GiveKeepsHighestIff` | freertos/queue.c:899-926 | if giving a mutex asks for no switch: exactly when the giver did not fall below a ready task |
| `Mutexes.GiveForgetsYield` | freertos/queue.c:899-926 | a concrete give after which a lower task goes on running |
| `Mutexes.GiveAsksExactly` | freertos/queue.c:899-926 | giving asks for a switch if and only if the woken task is above the giver afterwards or, with nobody to wake, the giver lost a priority |
| `Mutexes.GiveWakesFirst` | freertos/queue.c:899-926 | the scheduler runs with the priorities that giving leaves, and exactly the first waiter became ready |
| `Mutexes.WaitBlocks` | freertos/queue.c:1629-1648 | the scheduler runs with the inherited priority, and exactly the waiting task is no longer ready |
| `Mutexes.GiveUpFollowed` | freertos/tasks.c:4285-4345 | the scheduler runs with the lowered priority and the same tasks are ready |
| `Mutexes.PrioritySetAsksExactly` | freertos/tasks.c:1587-1625 | setting a priority asks for a switch if and only if the base of the running task goes down or that of another one goes up, to the running task's priority or beyond; a priority in use that is not inherited is the base |
| `Mutexes.PrioritySetFollowed` | freertos/tasks.c:1626-1697 | the scheduler runs with the priority that was set and the same tasks are ready |
| `Mutexes.MutexTasks.TakeMutex` | freertos/tasks.c:4689-4701 | count and holder |
| `Mutexes.MutexTasks.PriorityInherit` | freertos/tasks.c:4076-4160 | priority, event item, ready lists and result |
| `Mutexes.MutexTasks.WaitForMutex` | freertos/queue.c:1629-1648 | inheritance, the place on the wait list found by item value, and the block |
| `Mutexes.MutexTasks.PriorityDisinherit` | freertos/tasks.c:4166-4239 | priority, event item, count, ready lists and result |
| `Mutexes.MutexTasks.GetDisinheritPriorityAfterTimeout` | freertos/queue.c:2135-2155 | what the first item on the list says |
| `Mutexes.MutexTasks.PriorityDisinheritAfterTimeout` | freertos/tasks.c:4246-4345 | priority, event item and ready lists |
| `Mutexes.MutexTasks.GiveMutex` | freertos/queue.c:899-926 | disinheritance, the holder, the first waiter woken, and whether to yield |
| `Mutexes.MutexTasks.PrioritySet` | freertos/tasks.c:1550-1697 | base, priority in use, event item, ready lists and whether to yield |
| `Queues.WriteSlot` | freertos/queue.c:2160-2261 | the slot written next is (read slot + 1 + count) mod length, and both pointers lie in the storage |
| `Queues.SendsToBack` | freertos/queue.c:2190-2202 | the item becomes the newest |
| `Queues.SendsToFront` | freertos/queue.c:2202-2216 | the item becomes the oldest |
| `Queues.Overwrites` | freertos/queue.c:2202-2240 | the only item of a queue of length one is replaced |
| `Queues.ReceiveRemoves` | freertos/queue.c:2243-2261 | the oldest item is read and gone |
| `Queues.StaysWithinLength` | freertos/queue.c:2170-2241 | the count exceeds the length exactly when a full queue without item bytes is overwritten |
| `Queues.OverwrittenSemaphore` | freertos/queue.c:2170-2241 | a binary semaphore that then counts two |
| `Queues.RunRefinesDeque` | freertos/queue.c:266-330 | over every run of sends, overwrites, receives, peeks and resets the storage answers as a double-ended queue does, for any item size, unless a full queue of items without bytes is overwritten |
| `Queues.CallRefinesIff` | freertos/queue.c:2160-2261 | one call is that of a double-ended queue if and only if it is not that overwrite |
| `Queues.Queue.constructor` | freertos/queue.c:464-505 | an empty queue |
| `Queues.Queue.Reset` | freertos/queue.c:266-287 | an empty queue again |
| `Queues.Queue.CopyDataToQueue` | freertos/queue.c:2160-2241 | the writes of the source equal the function on values |
| `Queues.Queue.CopyDataFromQueue` | freertos/queue.c:2243-2261 | the pointer moved and the item read |
| `Queues.Queue.Send` | freertos/queue.c:834-925 | the new items and whether it passed; the one overwrite that counts an item too many |
| `Queues.Queue.Receive` | freertos/queue.c:1377-1424 | the oldest item, removed, unless the queue is empty |
| `Queues.Queue.Peek` | freertos/queue.c:1744-1762 | the oldest item, kept |
| `QueueLocks.StepKeeps` | freertos/queue.c:826-1013 | every step of a task or interrupt keeps the accounts of both sides |
| `QueueLocks.NoLostWakeUp` | freertos/queue.c:826-1954 | over every interleaving, while a receiver waits the messages are at most the receivers woken but not retried plus the positive lock count, and likewise free slots and senders |
| `QueueLocks.QuietQueue` | freertos/queue.c:1377-1491 | when nobody decides and nobody woken has still to retry, receivers wait on an empty queue only and senders on a full one only |
| `QueueLocks.LockedByOne` | freertos/queue.c:251-263 | the lock counts are in use exactly while one task decides |
| `QueueLocks.MessagesAreConserved` | freertos/queue.c:826-1954 | over every interleaving the count is the one at the start plus the messages that sends of tasks and interrupts added minus those that receives took, each told by the guard on the state before the event |
| `QueueLocks.StepConserves` | freertos/queue.c:826-1954 | the same for one event |
| `QueueLocks.StepWakes` | freertos/queue.c:826-2381 | each event wakes the tasks at the front of a wait list, and no more than messages, or slots, it gives reason for |
| `QueueLocks.WakesAreEarned` | freertos/queue.c:826-2381 | over every interleaving no more receivers are woken or announced by the lock count than messages arrived |
| `QueueLocks.DecidesToWait` | freertos/queue.c:974-1010 | with the queue locked a task goes on to wait if and only if there is still nothing for it |
| `QueueLocks.GoesOnList` | freertos/queue.c:977-985 | it is then on the wait list, with those that were there in their order |
| `QueueLocks.WaitsUntilWoken` | freertos/queue.c:826-2381 | over every interleaving a waiting task stays on the list until an event wakes it or its time is up, and a woken one stays woken until it tries |
| `QueueLocks.DrainedAnnounces` | freertos/queue.c:2264-2381 | unlocking makes up for all events that were counted |
| `QueueLocks.ResetLosesUnless` | freertos/queue.c:280-304 | after a reset the accounts of the senders hold exactly if no other sender waits or the woken ones can fill the queue |
| `QueueLocks.ResetForgetsSender` | freertos/queue.c:288-304 | a concrete reset that leaves a sender waiting on an empty queue |
| `QueueLocks.WaitLists.LockQueue` | freertos/queue.c:251-263 | both counts |
| `QueueLocks.WaitLists.UnlockTx` | freertos/queue.c:2264-2352 | as many receivers are woken as the count says and there are |
| `QueueLocks.WaitLists.UnlockRx` | freertos/queue.c:2354-2380 | as many senders are woken as the count says and there are |
| `QueueLocks.WaitLists.TrySend` | freertos/queue.c:834-925 | the count and at most one receiver woken |
| `QueueLocks.WaitLists.TryReceive` | freertos/queue.c:1377-1410 | the count and at most one sender woken |
| `QueueLocks.WaitLists.TryPeek` | freertos/queue.c:1748-1785 | the data stay, the next receiver is woken |
| `QueueLocks.WaitLists.SendISR` | freertos/queue.c:1051-1178 | the message counted and a wake-up or, if the queue is locked, an increment of cTxLock; nothing if the queue is full |
| `QueueLocks.WaitLists.ReceiveISR` | freertos/queue.c:1893-1954 | the message taken and a wake-up or, if the queue is locked, an increment of cRxLock; nothing if the queue is empty |
| `Timers.DecisionIsRight` | freertos/timers.c:711-752 | the decision of prvInsertTimerInActiveList, taken from counters, is right in absolute time: at once, this turn or the next |
| `Timers.OverrunCounts` | freertos/timers.c:517-533 | the reload loop counts every expiry time that is past and ends at the last of them |
| `Timers.ReloadCounts` | freertos/timers.c:517-533 | the timer is called for those and armed for the next one on the right list |
| `Timers.DrainKeeps` | freertos/timers.c:903-925 | draining ends with an empty list and keeps all invariants; nothing is put back |
| `Timers.SwitchProgress` | freertos/timers.c:903-925 | after the switch every timer is on the list of the right turn |
| `Timers.SampleProgress` | freertos/timers.c:688-708 | a wrap is detected exactly when the turn changed, for samples less than a turn apart |
| `Timers.TimerOrBlockKeeps` | freertos/timers.c:599-658 | a round of the daemon leaves exactly the active timers listed, once, in order |
| `Timers.RoundServes` | freertos/timers.c:599-625 | a round with a due timer and no list switch calls the first one, at least once, after which it is due no more and the others stay as they are |
| `Timers.DaemonCatchesUp` | freertos/timers.c:562-658 | from any state, across a wrap, finitely many rounds at one time leave nothing due |
| `Timers.AwakeIff` | freertos/timers.c:612-650 | the daemon goes on without waiting for a command if and only if it switched lists or a timer is due |
| `Timers.ProcessCommandKeeps` | freertos/timers.c:755-900 | so does every command |
| `Timers.CallbackCount` | freertos/timers.c:517-560 | over every run across wraps, a timer started at C with period p has been called exactly floor((N - C) / p) times when the daemon has caught up at N, and is on the list of the right turn for the next multiple; a one-shot timer was called once if its time has come |
| `Timers.EventuallyServed` | freertos/timers.c:562-658 | after any run that starts from a running count, finitely many rounds make that count exact |
| `Timers.StartBegins` | freertos/timers.c:816-845 | a start or reset command begins the count at its stamp, whatever happened to the timer before |
| `Timers.PeriodBegins` | freertos/timers.c:853-866 | a change of the period begins the count with the new period at the time of the command |
| `Timers.StopSilences` | freertos/timers.c:847-900 | a stopped or deleted timer is on no list and is not called over any run until a command about it comes; only a dynamic one that is deleted is gone |
| `Timers.NewPeriodIsAhead` | freertos/timers.c:854-866 | a changed period never expires at once |
| `Timers.TimerDaemon.InsertTimerInActiveList` | freertos/timers.c:711-752 | list and result |
| `Timers.TimerDaemon.ReloadTimer` | freertos/timers.c:517-533 | the loop ends; callbacks and list |
| `Timers.TimerDaemon.ProcessExpiredTimer` | freertos/timers.c:536-560 | new lists, active bit and callback |
| `Timers.TimerDaemon.SwitchTimerLists` | freertos/timers.c:903-925 | the loop ends; lists exchanged |
| `Timers.TimerDaemon.SampleTimeNow` | freertos/timers.c:688-708 | lists switched if the counter went back |
| `Timers.TimerDaemon.ProcessTimerOrBlock` | freertos/timers.c:599-658 | one timer processed if it is due and the lists were not switched; otherwise how long to wait for a command |
| `Timers.SleepsNoLonger` | freertos/timers.c:626-640 | the wait for a command ends no later than the next expiry time and the wrap of the counter, and is without end only if no timer is active |
| `Timers.TimerDaemon.ReceiveCommand` | freertos/timers.c:755-900 | the timer off its list, time sampled, the command carried out |
| `Messages.LengthRoundTrip` | freertos/stream_buffer.c:724-763 | a length survives its prefix if and only if it fits the bytes of the prefix |
| `Messages.FirstFrame` | freertos/stream_buffer.c:871-908 | the prefix read is that of the first frame, and the message follows it |
| `Messages.FramesInjective` | freertos/stream_buffer.c:968-1017 | bytes parse as at most one sequence of messages |
| `StreamBuffers.WriteAppends` | freertos/stream_buffer.c:1141-1184 | data laid down at the head leaves the unread bytes alone and is behind them once the head moves |
| `StreamBuffers.ReadTakes` | freertos/stream_buffer.c:1187-1228 | data taken at the tail are the oldest bytes |
| `StreamBuffers.StreamBuffer.constructor` | freertos/stream_buffer.c:1252-1275 | an empty buffer with one cell more than its capacity |
| `StreamBuffers.StreamBuffer.WriteBytes` | freertos/stream_buffer.c:1141-1184 | the cells and the next head, with the copy split at the end of the storage |
| `StreamBuffers.StreamBuffer.ReadBytes` | freertos/stream_buffer.c:1187-1228 | the bytes and the next tail |
| `StreamBuffers.StreamBuffer.Send` | freertos/stream_buffer.c:673-763 | a message is appended whole or nothing changes; of a stream as much as fits is appended |
| `StreamBuffers.StreamBuffer.Receive` | freertos/stream_buffer.c:911-1017 | the oldest message is returned whole, or nothing changes when it does not fit; of a stream as much as asked for |
| `StreamRace.SpaceSeenIsExact` | freertos/stream_buffer.c:497-527 | when both readings of the tail agree the space computed is the space there is |
| `StreamRace.InFlightIsApart` | freertos/stream_buffer.c:724-763 | an unpublished write shares no cell with unread bytes |
| `StreamRace.LockFreeIsSafe` | freertos/stream_buffer.c:497-1249 | under every interleaving of one writer and one reader no access leaves the storage and the bytes received are a prefix of the bytes sent |
| `StreamRace.MessagesArriveInOrder` | freertos/stream_buffer.c:724-1017 | under every interleaving the messages received are the first ones sent, whole and in order |
| `StreamRace.WriterTakesWhatFits` | freertos/stream_buffer.c:724-763 | with agreeing readings of the tail a stream write takes as much as there is room for and a message write all or nothing; otherwise the writer reads again |
| `StreamRace.ReaderTakesWhatIsThere` | freertos/stream_buffer.c:911-960 | a stream read takes as much as there is and the caller has room for; a message read goes on if and only if there is more than a length |
| `StreamRace.ReaderTakesNextMessage` | freertos/stream_buffer.c:968-1017 | the oldest message is taken, whole, if and only if it fits what the caller has room for |
| `StreamRace.PublishedBehind` | freertos/stream_buffer.c:1141-1184 | moving the head makes exactly the bytes laid down readable, behind those that are there |
| `StreamRace.ConsumedInFront` | freertos/stream_buffer.c:1187-1228 | moving the tail gives up exactly the bytes copied, which are the oldest |
| `EventGroups.EventGroup.SetBits` | freertos/event_groups.c:533-626 | bits, waiters and item values after the call |
| `EventGroups.EventGroup.WakeSatisfied` | freertos/event_groups.c:556-615 | the walk follows the links of the list, takes waiters off on the way and misses none; other lists are untouched |
| `EventGroups.EventGroup.ClearBits` | freertos/event_groups.c:473-498 | the bits, and the value before as result |
| `EventGroups.EventGroup.WaitBits` | freertos/event_groups.c:339-407 | at once, or onto the list with the encoded condition |
| `EventGroups.EventGroup.PlaceOnUnorderedEventList` | freertos/tasks.c:3124-3146 | the item value is stored and the item linked in at the end |
| `EventGroups.EventGroup.RemoveFromUnorderedEventList` | freertos/tasks.c:3253-3275 | the item value is stored and the item unlinked; the node behind it takes its place |
| `EventGroups.EventGroup.Sync` | freertos/event_groups.c:194-255 | set, then return at once or wait for all bits |
| `EventGroups.EventGroup.Finish` | freertos/event_groups.c:268-310 | the value returned after the wait, without control bits |
| `EventGroups.SetBitsIsExact` | freertos/event_groups.c:533-626 | exactly the waiters whose condition holds on old or new bits are woken with that value, and exactly the bits of woken clear-on-exit waiters are cleared |
| `EventGroups.KeptInOrder` | freertos/event_groups.c:556-615 | the others stay in their order |
| `EventGroups.NoSatisfiedWaiter` | freertos/event_groups.c:194-626 | in every reachable state no blocked waiter is satisfied by the current bits |
| `EventGroups.NoControlBitReturned` | freertos/event_groups.c:300-314 | no control bit leaks into a result |
| `EventGroups.RendezvousAgreement` | freertos/event_groups.c:194-314 | any number of tasks call with one mask, between other operations on the group; when the last completes the mask it is clear, and each caller, whenever it runs again, returns the same value with the whole mask |
| `EventGroups.WaitConditionMeans` | freertos/event_groups.c:692-730 | all bits of the mask, or any, bit by bit |
| `EventGroups.ClearBitsIsExact` | freertos/event_groups.c:473-498 | exactly the bits named are cleared; waiters stay |
| `EventGroups.WaitReturnsAtOnce` | freertos/event_groups.c:339-372 | a wait returns at once if and only if its condition holds or it may not block, with the bits as they were, and clears exactly its mask if it got it and asked for that; otherwise the task is enlisted last |
| `EventGroups.SyncReturnsAtOnce` | freertos/event_groups.c:194-255 | the same for a rendezvous, after its bits were set |
| `EventGroups.WaitBitsEndToEnd` | freertos/event_groups.c:339-450 | a wait that blocks goes on over any operations that do not meet its condition, for any bit or all; the first that does wakes the task, which returns the bits that met it whenever it runs again, its mask cleared if it asked for that |
| `EventGroups.WaitTimesOut` | freertos/event_groups.c:418-450 | a task whose time is up returns the bits there are when it runs again and clears its mask if and only if they meet its condition by then and it asked for that |
| `EventGroups.EventGroup.Expire` | freertos/tasks.c:2809-2815 | the task leaves the list if it is still on it |
| `EventGroups.EventGroup.constructor` | freertos/event_groups.c:148-190 | no bits and no waiters |
| `HeapBlocks.CoalesceTiles` | common/heap_4.c:432-492 | freeing keeps the tiling and adds exactly the freed bytes |
| `HeapBlocks.CoalesceCoalesces` | common/heap_4.c:432-492 | freeing leaves no two free neighbours |
| `HeapBlocks.AllocateTiles` | common/heap_4.c:212-262 | allocating keeps the tiling and takes exactly the bytes of the block |
| `HeapBlocks.AllocateCoalesced` | common/heap_4.c:212-262 | allocating leaves no two free neighbours |
| `HeapBlocks.AllocateIsExact` | common/heap_4.c:232-262 | the caller gets the front of the free block, at most the minimum larger than wanted; what is left is one free block larger than the minimum; no other block changes |
| `HeapBlocks.CoalesceKeepsUsed` | common/heap_4.c:432-492 | freeing changes no block that is in use |
| `HeapBlocks.FreeUndoesAllocate` | common/heap_4.c:157-363 | freeing a block right after it was allocated restores all blocks exactly |
| `HeapBlocks.EverythingComesBack` | common/heap_4.c:157-363 | after any run with as many frees as allocations, in any order, the heap is the one block it started as, and only then |
| `HeapMemory.InsertedIsCoalesce` | common/heap_4.c:432-492 | the writes of prvInsertBlockIntoFreeList merge the block with its free neighbours, and the list stays in address order up to pxEnd |
| `Heaps.EarlyTestIsRight` | common/heap_4.c:212-213 | the test against xFreeBytesRemaining rejects no request that some block fits |
| `Heaps.ServedIff` | common/heap_4.c:182-230 | a request is served if and only if it can be represented and one free block has room for it and a header |
| `Heaps.ServedMemory` | common/heap_4.c:182-300 | what is served is aligned memory of the size asked for, behind its header and inside the heap, in a block that was free, is now in use and shares nothing with any other |
| `Heaps.FrontOfBlock` | common/heap_4.c:232-262 | taking the front of a free block and putting the rest back into the list |
| `Heaps.WholeBlock` | common/heap_4.c:232-262 | taking a whole free block |
| `Heaps.Heap.HeapInit` | common/heap_4.c:384-429 | one free block over the aligned heap |
| `Heaps.Heap.AdjustSize` | common/heap_4.c:182-210 | the size with header and alignment, or 0 if it cannot be represented |
| `Heaps.Heap.FindBlock` | common/heap_4.c:215-226 | the lowest free block that is large enough and the list node in front of it, or pxEnd |
| `Heaps.Heap.InsertBlockIntoFreeList` | common/heap_4.c:432-492 | the search ends at the node in front and the block is linked in there |
| `Heaps.Heap.Malloc` | common/heap_4.c:157-314 | NULL exactly for a request that is zero, not representable or larger than every free block; otherwise the lowest fit; the low-water mark and the counters follow; all invariants |
| `Heaps.Heap.Free` | common/heap_4.c:317-363 | the block is merged into the free ones; NULL and a block that is free already change nothing; the low-water mark stays; all invariants |

## Left out

- Pointers: list nodes, timers, tasks and heap headers are addressed by numbers in maps that one object holds, so aliasing is modelled by equal addresses and not by Dafny references.
- List links in the scheduler: `TaskLists` uses the rings that `KernelList` proves the linked lists to implement; the two are connected by the shared functions of `Rings`. Event groups work on the linked lists themselves.
- Wait-list order in `QueueLocks`: the place where a task enters a wait list is left open, which covers the priority order and any change of priorities; the scheduler model records only that a task waits for an event, and the content of the event lists is in `QueueLocks`, `EventGroups` and `Inheritance`.
- Leaving a critical section to yield: results that ask for a context switch are modelled, the switch itself is an event of its own in `TaskRuns`.
- Waiting of a task for a mutex it holds itself, deletion of mutexes, and recursive mutexes: the recursive calls only count.
- QueueLocks.NoLostWakeUp: runs without reset, delete, suspend or abort and with lock counts below 127, the limit that the source asserts; overwriting is excluded for items without bytes.
- Timers.CallbackCount: mode and period of the timer stay the same and the daemon is never a whole turn of the counter late, as the source assumes; timers are not started with a stamp that lies ahead.
- RoundRobin.TasksTakeTurns: tasks that stay ready with their priority throughout; one that is taken off and put back, also by a change of its priority, has a new turn.
- TaskRuns.WakesOnTime: nothing frees, suspends, resumes or deletes the task before its time comes.
- TaskControl.SuspendGood: the scheduler is running, and tasks have no notification state; a task suspended before the start is not modelled.
- TaskControl.CreateGood: the scheduler is running, so there is a current task; tasks created before the start, and the choice of the first one, are not modelled.
- Inheritance.InheritanceIsRight: runs in which every event meets its condition in `Inheritance.Fits`; what happens otherwise is shown by runs.
- Event groups: the 32-bit layout of the control bits only; bits are sets of bit positions.
- Blocking in `xStreamBufferSend` and `xStreamBufferReceive`, trigger levels, reset and the notifications that wake the other side: waiting adds no step on the ring.
- Counters of successful allocations and frees, task numbers and overflow counts do not wrap in the model, except where `TimeOuts` treats the overflow count modulo its width.
- Heap layout: the heap is smaller than half the address space and the list head lies outside it; pointers given to `Heaps.Heap.Free` are NULL or stem from a block of the heap.
- `xTaskAbortDelay`, `xTaskCatchUpTicks`, `xTaskResumeFromISR`, task notifications: they reuse the moves modelled here.
- Tickless idle, run-time statistics, tracing, stack checks, MPU, thread-local storage: configuration that does not touch these invariants.
- Queue sets, co-routines and the queue registry: further branches without a harder property.
- `vPortGetHeapStats`, task listing and name lookup, stack high-water marks: reporting only.
- The port layer: critical sections and interrupts appear as the boundaries of atomic steps.

# A verified model of the FreeRTOS kernel and two support routines

This project models, in Dafny, the FreeRTOS V9 kernel of the repository (`FREERTOS/tasks.c`, `timers.c`, `queue.c`,
`event_groups.c`, `list.c` and `include/list.h`), the byte ring buffer of `MEMORY/ringbuf.c` and the CRC-32 of
`USER/common.c`, and proves what they are for.

The kernel is described twice.

* **In absolute time** (`StateLists`, `EventItems`, `Ownership`, `KernelSpec`, `KernelOps`, `KernelOwnership`,
  `KernelMutex`): one state record `K`, with an unbounded tick count, one delayed list, one ready ring for each
  priority, the waiting lists and the mutex records.  Each task call, interrupt call and tick interrupt is one step on
  it, a critical section or a scheduler-suspended region of the source.  `KernelRuns` says which steps are allowed
  when, and its runs are arbitrary sequences of them; `KernelTime`, `KernelTicks`, `KernelPriority`, `KernelWaiting`,
  `KernelWaking`, `KernelSuspended` and `KernelPreemption` hold the theorems over every run.
* **As the source has it** (`Tasks`, class `Scheduler`): a tick count that wraps at `M`, two delayed lists of wrapped
  wake times that change places, a cached next unblock time, counters of the widths of the C types, and loops that
  drain lists.  Every method is proved to do to `Abs()`, the absolute state its fields stand for, exactly what the
  step of the first description does.  `DelayedLists` holds the argument about the two lists.

On top of the same ideas: `Timeouts` (block times over several waits, fixed-rate delays), `Timers` with `TimerTracks`
and `TimerWork` (the timer daemon, whose two lists and command queue are proved against what an auto-reload timer
promises, turn by turn in absolute time, and which is proved to catch up),
`QueueProtocol` and `Queues` (the queue lock protocol as steps of tasks and interrupts, and the byte ring), `EventGroups`
and `Barrier` (the rendezvous built from `xEventGroupSync`).  `Lists` proves the circular linked lists on the heap
against the sequences and rings of module `Sequences` that everything else uses.  `RingBuf` and `Crc32` stand alone.

Parameters: `M` is the number of tick values (2^16 or 2^32), `P` is `configMAX_PRIORITIES`.  Every `configASSERT` of
the source is a precondition.  Theorems over runs start from any state of the invariant; `StartedInv` and `Contend`
show such states and runs.  The environment chooses when interrupts and ticks come, and the absolute time at which
the timer daemon reads the tick count.  Priorities, tasks, timers, mutexes and list handles are numbers.

## Where the code differs from what is said about it

* `vListInsertEnd` puts the new item immediately before the item `pxIndex` points at, so it is the last to be returned
  by `listGET_OWNER_OF_NEXT_ENTRY` only if the index stands on the end marker; else the item the index stands on comes
  after it (`InsertEndKeepsTurns`).
* The queue lock counts are `int8_t`: with more than 127 interrupts of one kind inside one lock wake-ups are lost
  (`UnlockMovesExactly`, `CountOverflowLosesWakeUp`).
* `xQueueGenericReset` wakes one waiting sender although it makes room for more (`ResetKeepsWhen`).
* `vTaskPrioritySet` on a task with an inherited priority can leave it below its own base priority
  (`RepriceAboveBase`, `BelowBaseReachable`).
* A yield can get lost when a mutex is given (`queue.c:807-830`).  If the giver falls back to its base priority and a
  task waits for the mutex, only the waiter's priority is looked at; a ready task between the two priorities then
  outranks the running task although no switch has been asked for, by a yield, by `xYieldPending` or by what a call
  tells an interrupt (`SilentExactly`, and a run of eleven steps from the start state in `SilentReachable`).  This is
  the only such case (`NobodyOutranksUnasked`).
* `vTaskPrioritySet` on a task with an inherited priority gives its event item the value of the new base priority, not
  of the priority it runs at (`RepriceKeepsValue`).
* A call of `vTaskDelayUntil` or `xTaskCheckForTimeOut` that comes a whole turn of the tick counter late can take the
  wrong decision (`DelayUntilWrongWhen`, `CheckWrongWhen`).
* The comments of `MEMORY/ringbuf.c` speak of 8-bit indices; the fields are 16 bits wide, and the model follows them.

## Model

| member | source | states |
|---|---|---|
| KernelTime.BlockedExactlyThatLong | FREERTOS/tasks.c:4694-4803 | over every run and any number of wraps, a task that blocks at tick T for d ticks, by a delay or on any list, and is not woken, suspended or deleted, sleeps in every state before T + d and is ready in the first state that has reached it |
| KernelTime.ReadyWhenDue | FREERTOS/tasks.c:2501-2610 | any untouched sleeper due at w is ready in the first state of the run whose time has reached w |
| KernelTime.SleepsUntilDue | FREERTOS/tasks.c:2501-2610 | and it sleeps in every state before |
| KernelTime.BlockingStartsSleep | FREERTOS/tasks.c:4694-4803 | each of the four blocking calls, with a finite block time, puts the running task to sleep until exactly now plus that time |
| KernelTime.StepSleeper | FREERTOS/tasks.c:2511-2645 | no step of any kind wakes an untouched sleeper early or late, the replay of held-back ticks included |
| KernelSpec.ReleaseDueExact | FREERTOS/tasks.c:2537-2610 | the unblocking loop readies exactly the tasks that are due and changes nothing else |
| KernelRuns.StepKeeps | FREERTOS/tasks.c:965-1026 | every step of create, delete, block, wake, suspend, resume, priority change, mutex and scheduler operation keeps the invariant: the task partition, the delayed order, the ready priorities, the event items, the mutex counts, the clean-up count and the priority bound |
| KernelRuns.RunKeeps | FREERTOS/tasks.c:1054-1119 | so every state of every run satisfies it |
| KernelRuns.PartitionAlways | FREERTOS/tasks.c:1054-1119 | in every state of every run each task's state item is in exactly one list, if ready in that of its priority, its event item in at most one, the lengths sum to `uxCurrentNumberOfTasks`, `uxDeletedTasksWaitingCleanUp` is the length of the termination list, and no ready list above `uxTopReadyPriority` holds a task |
| KernelRuns.AccountsAlways | FREERTOS/tasks.c:3779-3788 | in every state of every run a mutex has one message exactly when it has no holder, `uxMutexesHeld` is the number of mutexes that name the task, and a task that holds none runs at its base priority |
| KernelPriority.StartedInv | FREERTOS/tasks.c:1828-1932 | the state in which the scheduler starts satisfies it |
| EventItems.AtMostOnePlace | FREERTOS/tasks.c:2896-2928 | an event item is in at most one waiting or pending list, the one its container names |
| StateLists.ExactlyOneHome | FREERTOS/tasks.c:1572-1602 | each task's state item is in exactly one of the ready, delayed, suspended and termination lists, and if ready in the list of its own priority |
| StateLists.LengthsSumToTasks | FREERTOS/tasks.c:3378-3405 | the list lengths add up to the number of tasks |
| KernelSpec.SwitchContextPicksHighest | FREERTOS/tasks.c:165-190 | after an unsuspended switch the chosen task is ready and no ready task has a higher priority |
| KernelPriority.RoundRobin | FREERTOS/tasks.c:2763-2808 | with n tasks ready at the top priority, any n switches in a row run each exactly once |
| Sequences.FullRoundServesEachOnce | FREERTOS/include/list.h:318-329 | n walks of a list of n items return each item once |
| Sequences.RemovalKeepsTurns | FREERTOS/list.c:212-238 | removing an item, wherever the index stands, leaves the order of the others' turns as it was: none is skipped or repeated |
| Sequences.InsertEndKeepsTurns | FREERTOS/list.c:116-142 | inserting at the end keeps the others' turns, and says exactly where in the round the new item comes |
| KernelTicks.SuspensionOnlyDelaysTicks | FREERTOS/tasks.c:2019-2126 | suspending, k ticks and resuming reaches the same time, overflow count, lists and tasks as k ticks with the scheduler running, for every k the 32-bit count can hold and any lists |
| KernelTicks.SuspensionLosesTicksBeyondCounter | FREERTOS/tasks.c:2624-2645 | the time reached is the same if and only if k is below 2^32 |
| KernelTicks.EveryTickCounted | FREERTOS/tasks.c:2511-2645 | over every run the tick count plus the pended ticks counts every tick interrupt modulo M, even if the pended count itself wraps |
| KernelTicks.NoTickLost | FREERTOS/tasks.c:2511-2645 | and exactly, as long as the pended count does not wrap |
| KernelPriority.InheritanceHolds | FREERTOS/tasks.c:3708-3767 | over every run, from the moment a task blocks on a held mutex until the holder has given back its last mutex, the holder's priority is at least the one the waiter had, if nobody sets the holder's priority |
| KernelPriority.BlockingInherits | FREERTOS/tasks.c:3708-3767 | a task that blocks on a held mutex lends its priority to the holder, no more and no less, and changes nobody else's |
| KernelPriority.GivingReturns | FREERTOS/tasks.c:3774-3848 | giving takes the inherited priority back exactly with the last mutex, and changes nobody else's |
| KernelPriority.PrioritySetOnly | FREERTOS/tasks.c:1404-1560 | the base becomes the new priority, the effective one too unless it is inherited, a ready task moves to that list, and no other task is touched |
| KernelPriority.NeverBelowBase | FREERTOS/tasks.c:3774-3848 | no task's priority falls below its base, over every run whose priority changes are safe |
| KernelPriority.RepriceAboveBase | FREERTOS/tasks.c:1404-1560 | setting a priority keeps the task at or above its base if and only if nothing is inherited or the new base is not above the inherited priority |
| KernelPriority.Contend | FREERTOS/queue.c:1381-1398 | a run from the start state to one where a task is about to ask for a mutex that a task of lower priority holds |
| KernelPriority.BelowBaseReachable | FREERTOS/tasks.c:1476-1500 | a run from the start state of eight steps that ends with a task at priority 3 and base priority 4 |
| KernelPriority.StepMovesMutex | FREERTOS/queue.c:1278-1293 | exclusion, of the mutex record alone: a mutex leaves a holder only when that holder gives it, and is taken only while free, or again by its holder; who is woken is in KernelWaking.GiveWakesHead |
| KernelPriority.RecursiveMutexBalances | FREERTOS/queue.c:573-663 | over every run a recursive mutex's call count is the takes less the holder's gives, and it is free exactly when they balance |
| KernelMutex.HeldMutex | FREERTOS/queue.c:1381-1398 | a mutex with no message has a holder, whose count of held mutexes is not zero |
| Ownership.TakeCounted | FREERTOS/tasks.c:4180-4190 | taking keeps every task's `uxMutexesHeld` equal to the number of mutexes that name it as holder |
| Ownership.ReleaseCounted | FREERTOS/tasks.c:3779-3788 | and so does giving |
| KernelPriority.StepKeepsCondition | FREERTOS/tasks.c:1510-1513 | no step, priority changes and inheritance included, alters the condition an event group waiter has stored |
| KernelPriority.WaitingStores | FREERTOS/tasks.c:2839-2860 | a task that waits for bits joins the end of the list with its condition, marked as in use, in its item |
| KernelPriority.ConditionLasts | FREERTOS/tasks.c:3724-3727 | so over every run the condition is as stored for as long as the task waits |
| KernelWaiting.StaysByPriority | FREERTOS/tasks.c:2822-2836 | over every run that leaves the waiters' priorities alone, a waiting list stays in priority order, every item with the value of its task's priority |
| KernelWaiting.ValuesFollowPriorities | FREERTOS/tasks.c:877-877 | over every run without a priority change of a task that inherits, every event item not in use by an event group has the value configMAX_PRIORITIES less its task's priority |
| KernelWaiting.RepriceKeepsValue | FREERTOS/tasks.c:1508-1515 | vTaskPrioritySet keeps that if and only if the task is at its own priority, is given the base it has or the priority it inherits, or its item is in use |
| KernelWaiting.CreatedAs | FREERTOS/tasks.c:769-1026 | a new task is ready at the priority asked for, that of its base and its item value, and holds nothing |
| KernelWaiting.WakesHighest | FREERTOS/tasks.c:2896-2961 | the task woken from such a list has the highest priority of all that wait on it |
| KernelWaking.NobodyForgotten | FREERTOS/queue.c:807-822 | over every run, whenever a mutex is free and a task waits for it, some task has been woken from its list by a give and has not tried for it since; so with every woken task back nobody waits for a free mutex |
| KernelWaking.GiveWakesHead | FREERTOS/queue.c:809-811 | giving a mutex that is waited for makes the first waiter ready, or pending while the scheduler is suspended, and takes it off every waiting list |
| KernelWaking.WakeHeadRouses | FREERTOS/tasks.c:2896-2961 | the first of a waiting list is made ready at its priority, or pending while the scheduler is suspended |
| KernelWaking.WakeUnorderedAwakes | FREERTOS/tasks.c:2964-3006 | an event group waiter is made ready at once, with its answer in its item |
| KernelWaking.ResumeAllReadies | FREERTOS/tasks.c:2036-2058 | every task woken during a suspension is ready when it ends |
| KernelSuspended.SuspendParks | FREERTOS/tasks.c:1572-1602 | a suspended task is in the suspended list and its event item is in no list |
| KernelSuspended.SuspendedStays | FREERTOS/tasks.c:1568-1655 | over every run a suspended task that nobody resumes or deletes stays so, whatever happens to the lists it was in, and runs no more, from the first switch on if it suspended itself |
| KernelSuspended.ResumeAwakes | FREERTOS/tasks.c:1704-1750 | vTaskResume makes it ready at its priority |
| KernelSuspended.ResumeFromISRRouses | FREERTOS/tasks.c:1758-1815 | and so does the call from an interrupt, or notes it to be readied when the scheduler is resumed |
| KernelSuspended.BlockedForEver | FREERTOS/tasks.c:4716-4724 | a task that blocks with portMAX_DELAY waits on that list in every state of the run, however many ticks pass, until a call wakes, suspends or deletes it |
| KernelSuspended.DeleteRemoves | FREERTOS/tasks.c:1054-1119 | another task goes with every trace; the running one is in the termination list and in no event list |
| KernelSuspended.CleanUpRemoves | FREERTOS/tasks.c:3378-3405 | until the idle task frees it |
| KernelPreemption.NobodyOutranksUnasked | FREERTOS/tasks.c:2938-2944 | over every run, if a ready task has a higher priority than the running one, a switch is pending or has been asked for since the last one, but for the silent give |
| KernelPreemption.TickAsksRightly | FREERTOS/tasks.c:2594-2625 | a tick asks for a switch only if one was pending or another ready task has at least the running task's priority, and always if one shares it |
| KernelPreemption.SwitchWaits | FREERTOS/tasks.c:2763-2772 | a switch that comes while the scheduler is suspended is left pending |
| KernelPreemption.SilentExactly | FREERTOS/queue.c:807-830 | a give lets a task outrank the giver with no switch asked for if and only if the giver falls to its base priority, the first waiter is not above that, and the task is |
| KernelPreemption.SilentReachable | FREERTOS/queue.c:807-830 | a run of eleven steps from the start state that ends so |
| DelayedLists.FiledTime | FREERTOS/tasks.c:4726-4765 | a wrapped wake time below the tick count belongs to the next epoch; filed in the list that test chooses, it takes its place in absolute order, and the cached time still bounds the current list |
| DelayedLists.CurrentEmptyAtWrap | FREERTOS/tasks.c:240-252 | at every wrap the current delayed list is empty |
| DelayedLists.SkipIsSafe | FREERTOS/tasks.c:2537-2560 | below the cached next unblock time nothing in either list is due |
| DelayedLists.WithoutEither | FREERTOS/tasks.c:2582-2590 | taking an item out of the one list that holds it takes it out of the two laid end to end |
| Tasks.Scheduler.constructor | FREERTOS/tasks.c:1828-1932 | the fields stand for the start state |
| Tasks.Scheduler.IncrementTick | FREERTOS/tasks.c:2501-2670 | wrapped count, two lists and cached time do what one tick does in absolute time; and a switch is asked for exactly when a task of the running task's priority or above wakes, the running task must share its priority, or one was pending |
| Tasks.Scheduler.UnblockExpired | FREERTOS/tasks.c:2541-2610 | the loop releases exactly what is due in absolute time, keeps both lists and the cached time in order, and reports whether it woke a rival |
| Tasks.Scheduler.SwitchDelayedLists | FREERTOS/tasks.c:240-252 | the lists change places, the overflow count goes up modulo 2^32, and every item is in the list of its epoch again |
| Tasks.Scheduler.ResetNextTaskUnblockTime | FREERTOS/tasks.c:3637-3658 | the cached time is a bound on the current list |
| Tasks.Scheduler.AdvanceTick | FREERTOS/tasks.c:2515-2531 | the count and, at the wrap, the lists go on by exactly one absolute tick |
| Tasks.Scheduler.ResumeAll | FREERTOS/tasks.c:2019-2126 | readies the pending tasks in order and replays every pended tick, as the absolute step does |
| Tasks.Scheduler.SwitchContext | FREERTOS/tasks.c:2763-2819 | does the absolute step: the search ends, at the highest ready priority |
| Tasks.Scheduler.HighestReadyPriority | FREERTOS/tasks.c:175-190 | the search ends at a ready list with nothing above it |
| Tasks.Scheduler.FileWakeTime | FREERTOS/tasks.c:4726-4765 | the wrapped time goes into the list of its epoch, in absolute order |
| Tasks.Scheduler.AddCurrentTaskToDelayedList | FREERTOS/tasks.c:4694-4803 | the running task leaves its ready list for the delayed list of its epoch, or for the suspended list if it may and does wait for ever |
| Tasks.Scheduler.PlaceOnEventList | FREERTOS/tasks.c:2822-2836 | and joins a waiting list in priority order |
| Tasks.Scheduler.PlaceOnUnorderedEventList | FREERTOS/tasks.c:2839-2860 | or at the end, with its condition, marked as in use, as item value |
| Tasks.Scheduler.RemoveFromEventList | FREERTOS/tasks.c:2896-2961 | the first waiter is readied, or pended while the scheduler is suspended; true when it should run before the running task |
| Tasks.Scheduler.RemoveFromUnorderedEventList | FREERTOS/tasks.c:2964-3006 | the named waiter is given its answer and readied |
| Tasks.Scheduler.ResetEventItemValue | FREERTOS/tasks.c:4164-4175 | the answer is fetched and the item gets the value of the task's priority back |
| Tasks.Scheduler.Suspend | FREERTOS/tasks.c:1568-1655 | the absolute step (see KernelSuspended.SuspendParks), the cached time is made good, and the call yields exactly if the running task suspends itself |
| Tasks.Scheduler.Resume | FREERTOS/tasks.c:1704-1750 | a suspended task that waits for nothing is readied, with a yield exactly if it is not below the running task; any other call changes nothing |
| Tasks.Scheduler.ResumeFromISR | FREERTOS/tasks.c:1758-1815 | the same from an interrupt, pended while the scheduler is suspended |
| Tasks.Scheduler.CreateTask | FREERTOS/tasks.c:769-1045 | the absolute step (see KernelWaiting.CreatedAs), and a yield exactly if the new task is above the running one |
| Tasks.Scheduler.Delete | FREERTOS/tasks.c:1050-1135 | another task goes with every trace; the running task is left to the idle task |
| Tasks.Scheduler.CleanUpDeletedTask | FREERTOS/tasks.c:3367-3408 | the idle task frees the task deleted first |
| Tasks.Scheduler.PrioritySet | FREERTOS/tasks.c:1404-1560 | base priority, effective priority, free item value and ready list change as the absolute step says, with a yield exactly where the source asks for one |
| Tasks.Scheduler.PriorityInherit | FREERTOS/tasks.c:3708-3767 | the holder of a wanted mutex is raised to the running task's priority, and refiled if it is ready |
| Tasks.Scheduler.PriorityDisinherit | FREERTOS/tasks.c:3774-3848 | the count goes down, with the last mutex the priority falls back to the base, and the result is true exactly then |
| Tasks.Scheduler.GiveMutex | FREERTOS/queue.c:745-840 | giving: the first waiter is woken and decides about the yield; with nobody waiting the lost priority does |
| Tasks.Scheduler.BlockOnMutex | FREERTOS/queue.c:1371-1402 | waiting: the holder inherits, then the running task joins the waiting list |
| Timeouts.CheckExact | FREERTOS/tasks.c:3017-3075 | fewer than M ticks after it was set, a time out has expired exactly when the ticks gone by reach the wait, and if not the rest is the wait less those ticks |
| Timeouts.CheckWrongWhen | FREERTOS/tasks.c:3017-3075 | however late the check, it goes wrong exactly when one or more whole turns, and then less than the wait, have gone by and the turns do not show in the two counters |
| Timeouts.LateCheckMisses | FREERTOS/tasks.c:3041-3050 | a call that does go wrong |
| Timeouts.ChecksAddUp | FREERTOS/tasks.c:3017-3075 | over any number of checks, each within M ticks of the one before, expiry is reported exactly when the total reaches the original wait, and until then the rest is the wait less the total |
| Timeouts.TimeOut.Check | FREERTOS/tasks.c:3017-3075 | the wrapped counters give the answer that holds in absolute time |
| Timeouts.DelayUntil | FREERTOS/tasks.c:1142-1205 | the case split on wrapped times decides by the ticks since the last wake time, modulo M |
| Timeouts.DelayUntilWrongWhen | FREERTOS/tasks.c:1142-1205 | this is right, sleeping exactly when the release is ahead, unless the caller comes one or more whole turns, and then less than the increment, late |
| Timeouts.DelayUntilLate | FREERTOS/tasks.c:1142-1205 | a caller exactly one turn late sleeps for a release long past |
| Timeouts.NoDrift | FREERTOS/tasks.c:1142-1205 | a task that calls in a loop and is never a turn late has its k-th release at start + k * increment and sleeps exactly up to it |
| TimerTracks.OncePerPeriod | FREERTOS/timers.c:499-536 | an auto-reload timer started by a command sent at C, over any sequence of daemon turns and calls on other timers with no command refused: when the daemon has nothing more to do at N the callback has run exactly once for each of C+P, C+2P, ... up to N, in order, and at any time before for the first so many of them |
| TimerTracks.TrackLasts | FREERTOS/timers.c:725-869 | between commands on it a timer keeps its start, its period and the record of its callbacks, over any sequence of turns |
| TimerTracks.FiredExactlyOnTime | FREERTOS/timers.c:575-632 | in one state: nothing due and nothing queued means every period that has ended has had its callback, once |
| Timers.ExpiredAlreadyExact | FREERTOS/timers.c:684-722 | with N - C < M and 1 <= P < M the test on wrapped times says yes exactly when C + P <= N, and else tells the epoch of C + P |
| Timers.ReloadFalls | FREERTOS/timers.c:872-928 | the sum of M minus expiry over the current list falls with each turn of the switch loop, also when the timer is put back |
| Timers.TimerDaemon.InsertTimerInActiveList | FREERTOS/timers.c:684-722 | true exactly when C + P has passed; otherwise the timer is in the list of the epoch of C + P |
| Timers.TimerDaemon.SwitchTimerLists | FREERTOS/timers.c:872-928 | ends with the callback of every old-epoch timer run for the time it was due, the lists exchanged and every steady timer on track |
| Timers.TimerDaemon.ExpireBeforeSwitch | FREERTOS/timers.c:884-920 | one expiry of the old epoch: callback, then reload in the list or by command, by the true time of the next expiry |
| Timers.TimerDaemon.SampleTimeNow | FREERTOS/timers.c:661-681 | the lists are switched exactly when the tick count has wrapped since the last sample |
| Timers.TimerDaemon.ProcessExpiredTimer | FREERTOS/timers.c:499-536 | the head's callback runs for its own expiry time; an auto-reload timer is listed for the next expiry if that is to come, and else restarted by a command as of this one |
| Timers.TimerDaemon.ProcessReceivedCommand | FREERTOS/timers.c:725-869 | a start is listed for the end of its period or runs the callback for it, a new period counts from now, a stopped or deleted timer is in no list, whether or not the lists were switched meanwhile; every steady timer stays on track |
| Timers.TimerDaemon.ProcessReceivedCommands | FREERTOS/timers.c:725-869 | at one time the queue is emptied, restarts included, and that ends |
| Timers.TimerDaemon.TimerTask | FREERTOS/timers.c:539-572 | the daemon's loop at one time: after finitely many turns it blocks, with nothing due, nothing queued and every steady timer up to date, if no expiry or start command is M ticks old |
| TimerWork.ExpiredFalls | FREERTOS/timers.c:499-536 | each expiry dealt with leaves less work |
| TimerWork.ReceivedFalls | FREERTOS/timers.c:770-815 | and so does each command, a start that has already passed included |
| TimerWork.CarriedOutObeys | FREERTOS/timers.c:776-862 | what a command comes to for its timer, in absolute time |
| Timers.TimerDaemon.CreateTimer | FREERTOS/timers.c:389-416 | a dormant timer with its period and kind, and no callback run |
| Timers.TimerDaemon.OtherCommand | FREERTOS/timers.c:418-458 | the command joins the queue if there is room, and ends what was promised of the timer |
| Timers.TimerDaemon.ProcessStart | FREERTOS/timers.c:770-815 | a start command counts its period from the time it was sent, even if that period has passed |
| Timers.TimerDaemon.ProcessTimerOrBlockTask | FREERTOS/timers.c:575-632 | if the tick count has wrapped every timer of the old list has had its callback; if not and the first one is due, exactly that one expires; and else, only then, it blocks, with nothing due, until the first expiry or the wrap, never for 0 ticks, and for ever only with nothing listed |
| Timers.TimerDaemon.StartTimer | FREERTOS/timers.c:418-458 | the command joins the queue with the time of the call if there is room; an idle auto-reload timer is promised from then on, and all other promises stand |
| QueueProtocol.NobodyForgotten | FREERTOS/queue.c:1371-1415 | over every run of tasks and interrupts, with the queue unlocked and every woken task back, nobody waits for a message while there is one, or for space while there is some |
| QueueProtocol.WakesFirstOnly | FREERTOS/queue.c:807-822 | a send, receive or peek wakes one task at most, the first of its list |
| QueueProtocol.StopWaitingTakesOff | FREERTOS/tasks.c:2592-2600 | a task that stops waiting is off both lists, and nobody else loses his place |
| QueueProtocol.StaysOff | FREERTOS/queue.c:1371-1415 | and stays off them, over any run, until it blocks again |
| QueueProtocol.StepKeeps | FREERTOS/queue.c:955-1057 | every step, between the lock, the look and the wait included, keeps each message or free slot accounted for while somebody waits for it |
| QueueProtocol.UnlockMovesOneForEach | FREERTOS/queue.c:1795-1912 | k interrupt sends inside a lock, k <= 127: unlock moves min(k, waiters) receivers from the head of the list, the one that has just placed itself there included |
| QueueProtocol.UnlockMovesExactly | FREERTOS/queue.c:1795-1855 | it moves that many if and only if k <= 127; from 128 to 254 nobody |
| QueueProtocol.UnlockMovesSenders | FREERTOS/queue.c:1880-1912 | the same for senders |
| QueueProtocol.CountWrapsToUnlocked | FREERTOS/queue.c:265-277 | after 255 the locked queue reads as unlocked and an interrupt touches the list |
| QueueProtocol.CountOverflowLosesWakeUp | FREERTOS/queue.c:1010-1057 | a wake-up that is lost, with 128 messages in the queue |
| QueueProtocol.LockedSends | FREERTOS/queue.c:1010-1057 | while the queue is locked interrupts never touch the waiting lists |
| QueueProtocol.ResetKeepsWhen | FREERTOS/queue.c:280-330 | resetting a queue in use loses no wake-up if and only if at most one task waits to send or enough senders are on their way |
| QueueProtocol.ResetForgetsSender | FREERTOS/queue.c:300-320 | a reset after which a task waits to send to an empty queue |
| Queues.Play | FREERTOS/queue.c:1698-1792 | over any interleaving of sends to either end, overwrites, receives and peeks, what has been received followed by what is in the queue is the line of all items in the order of their turn, and the queue is never over-full |
| Queues.FirstInFirstOut | FREERTOS/queue.c:1698-1792 | with sends to the back only, it is what was accepted, in order |
| Queues.FrontThenTake | FREERTOS/queue.c:1739-1749 | what was sent to the front is received next, and all is as before |
| Queues.BackThenTake | FREERTOS/queue.c:1725-1737 | what was sent to the back is received after all that were there |
| Queues.OverwriteThenTake | FREERTOS/queue.c:1751-1768 | what overwrote is the one thing there is to receive |
| Queues.AfterIsMod | FREERTOS/queue.c:280-294 | the write slot is at (read slot + 1 + messages) mod length |
| Queues.WriteAppends | FREERTOS/queue.c:1725-1737 | writing there appends |
| Queues.WritePrepends | FREERTOS/queue.c:1739-1749 | writing at the read offset and stepping it back prepends |
| Queues.ReadDrops | FREERTOS/queue.c:1777-1792 | stepping it forward yields and drops the front |
| Queues.Queue.CopyDataToQueue | FREERTOS/queue.c:1698-1774 | on bytes and offsets: back appends, front prepends, overwrite replaces, and the four offsets keep their shape |
| Queues.Queue.CopyDataFromQueue | FREERTOS/queue.c:1777-1792 | the front item is copied out and dropped, or left when peeking |
| Queues.Queue.Send | FREERTOS/queue.c:724-919 | accepted exactly when there is room or it overwrites; the contents change accordingly, and the call is a step of the protocol that keeps its invariant |
| Queues.Queue.Receive | FREERTOS/queue.c:1238-1432 | the same for receiving and peeking |
| Queues.Queue.SendFromISR | FREERTOS/queue.c:922-1070 | the same from an interrupt, which counts instead of waking while the queue is locked |
| Queues.Queue.ReceiveFromISR | FREERTOS/queue.c:1435-1523 | the same for receiving |
| Queues.Queue.UnlockTxSide | FREERTOS/queue.c:1795-1865 | the loop on the `int8_t` count wakes one receiver for each counted send, as far as the list goes |
| Queues.Queue.NobodyWaitsInVain | FREERTOS/queue.c:1371-1415 | in the byte ring: between calls, with every woken task back, nobody waits to receive unless the queue is empty, nor to send unless it is full |
| Queues.Queue.GenericReset | FREERTOS/queue.c:280-330 | the queue is empty, its offsets are as at creation, and one sender is woken |
| EventGroups.NobodyEverOverlooked | FREERTOS/event_groups.c:531-622 | in every state any sequence of calls leads to, no task waits for a condition its group's bits already meet |
| EventGroups.ApplyKeeps | FREERTOS/event_groups.c:343-409 | each call keeps that |
| EventGroups.ConditionMeans | FREERTOS/event_groups.c:683-715 | a condition is met exactly when all of its bits are set, or one of them if that is asked for, bit by bit |
| EventGroups.SetBitsLeaves | FREERTOS/event_groups.c:589-617 | bit by bit, a bit is set afterwards exactly when it was set before or by the call and no released waiter that clears on exit waited for it |
| EventGroups.NobodyClears | FREERTOS/event_groups.c:592-595 | if no released waiter clears on exit the bits left are the snapshot |
| EventGroups.WaitBitsLeaves | FREERTOS/event_groups.c:351-375 | a wait met at once clears exactly the bits it waited for, and only if it asked for that; one given up at once clears nothing |
| EventGroups.AfterTimeoutLeaves | FREERTOS/event_groups.c:420-450 | the same for one that has timed out and looks once more |
| EventGroups.SyncLeaves | FREERTOS/event_groups.c:219-250 | a rendezvous met at once clears its bits, on top of what setting bits does, and no others |
| EventGroups.AnsweredExactly | FREERTOS/event_groups.c:560-617 | exactly the released tasks get an answer, all of them the one snapshot |
| EventGroups.ReleasedReturnsCondition | FREERTOS/event_groups.c:417-465 | a released task's call returns the snapshot, and it meets the condition that was waited for |
| EventGroups.ConditionRoundTrip | FREERTOS/event_groups.c:380-409 | the stored word gives back the bits, clear-on-exit and wait-for-all that were asked for |
| EventGroups.TimeoutsAreTold | FREERTOS/event_groups.c:420-450 | no stored condition can be taken for an answer, so a task whose wait timed out can tell |
| EventGroups.EventGroup.SetEventBits | FREERTOS/event_groups.c:531-622 | the walk that removes items as it goes releases exactly the waiters one snapshot (old bits or new bits) satisfies, and leaves that snapshot less the union of the bits waited for by those that clear on exit |
| EventGroups.EventGroup.SyncEventBits | FREERTOS/event_groups.c:209-322 | set, then met at once with the bits cleared, given up at once, or waiting for all of them |
| EventGroups.EventGroup.FinishWait | FREERTOS/event_groups.c:415-470 | a released task returns its answer; one that timed out returns the bits of now and clears them if its condition has come true since; its item value is reset |
| EventGroups.EventGroup.LeaveByTimeout | FREERTOS/tasks.c:2592-2600 | a task whose block time is up leaves the list with its condition in its item, not an answer |
| EventGroups.EventGroup.Delete | FREERTOS/event_groups.c:625-664 | every waiter is released and told of no bits |
| EventGroups.DeletedReturnsNothing | FREERTOS/event_groups.c:625-664 | and its call returns no bits |
| Barrier.BarrierHolds | FREERTOS/event_groups.c:209-322 | over every run, nobody has returned more often than anybody has arrived, so nobody leaves a round before all are in it, and each value returned holds all of W |
| Barrier.RoundCompletes | FREERTOS/event_groups.c:219-240 | a round completes exactly with the last arrival, and W is clear again before anyone can start the next |
| Barrier.RunKeeps | FREERTOS/event_groups.c:589-617 | with users of other bits in between, for any number of rounds |
| Lists.List.constructor | FREERTOS/list.c:79-101 | an empty ring through the end marker |
| Lists.List.Insert | FREERTOS/list.c:145-209 | the walk ends, at the end marker at the latest; the item goes after every item whose value is not larger, the maximum value last, and the moving index stays on its item |
| Lists.List.InsertEnd | FREERTOS/list.c:116-142 | the item goes immediately before the one the index names |
| Lists.List.Remove | FREERTOS/list.c:212-238 | ring, count, container and index are those of the list without the item |
| Lists.List.GetOwnerOfNextEntry | FREERTOS/include/list.h:318-329 | the index steps to the next item, past the end marker, and its owner is returned |
| Sequences.SortedInsertSorts | FREERTOS/list.c:145-209 | a sorted list stays sorted |
| Sequences.InsertPosIs | FREERTOS/list.c:165-195 | the place after the leading items not larger is the only one of its kind |
| RingBuf.BytesInOrder | MEMORY/ringbuf.c:61-102 | for every power-of-two size and every interleaving of the check, data and index steps of one producer and one consumer, the bytes returned are the bytes accepted, in order, and at most size - 1 are held |
| RingBuf.StoreSparesUnread | MEMORY/ringbuf.c:72-78 | no unread slot is overwritten |
| RingBuf.StepKeeps | MEMORY/ringbuf.c:61-102 | every one of these steps keeps the ring |
| RingBuf.DifferenceIs | MEMORY/ringbuf.c:72-72 | the masked difference of the two 16-bit indices is the number of bytes held |
| RingBuf.Buffer.Put | MEMORY/ringbuf.c:61-78 | refused exactly when size - 1 bytes are held |
| RingBuf.Buffer.Get | MEMORY/ringbuf.c:81-102 | -1 exactly when all bytes have been returned, and otherwise the next one |
| Crc32.CRC32 | USER/common.c:378-385 | on every buffer the bitwise reflected CRC-32 of section 8 of RFC 1952 |
| Crc32.CRC32Extend | USER/common.c:356-375 | from any register value, complemented if asked for |
| Crc32.EntryIsBitwise | USER/common.h:175-241 | each table entry is what eight bit steps make of its index |
| Crc32.StepIsBitwise | USER/common.c:361-364 | one turn of the loop is eight bit steps on the byte |
| Crc32.ChainedCallsGiveWhole | USER/common.c:356-375 | chained calls over any split give the checksum of the whole |
| Crc32.BurstDetected | USER/common.c:378-385 | two buffers that differ only within one window of at most four bytes have different checksums |

## Left out

* Ports and hardware: stack frames, real context switching, critical-section nesting, stack overflow checks.  A yield
  is a separate context switch step, which may come at any time after the call that asks for it.
* Task selection by the port's bit count: `FreeRTOSConfig.h` selects it, and the model follows the generic selection
  that it must agree with.  Queue sets, which the same file turns on, are not modelled.
* Memory allocation, static creation, tracing, statistics, the queue registry, task names, thread-local storage.
* Task notifications, `xTaskAbortDelay` and tickless idle.
* Deleting a task that holds a mutex, resetting a mutex as a queue, and any use of a handle after deletion: excluded by
  preconditions, as the source leaves them undefined.
* The memory of a deleted timer is not freed: its record stays, in no list, and its handle is not to be used.  Pended
  function calls (`xTimerPendFunctionCall`) and callbacks that send commands are not modelled.
* The daemon catches up, and a timer's expiries are those promised, only while no listed expiry and no queued start
  command is a whole turn of the tick counter old when the daemon comes to it; beyond that the wrapped times are
  ambiguous.
* A task woken for a mutex that is deleted or suspended before it has tried for the mutex counts as not having tried.
* Stopping, resetting or re-periodising an auto-reload timer ends what is promised of it; so does a full command queue,
  where the source asserts that the daemon's own restart command is accepted.
* Items of size 0 (semaphores) have no bytes to model; their counts are those of `QueueProtocol`, and mutexes are in
  the ownership record of the kernel state.
* The retry loops around the critical sections of `xQueueGenericSend` and `xQueueGenericReceive`: each turn is a step,
  and the protocol says in what order a task takes them.
* The in-use bit of an event group's item value is in the kernel model (`PlaceOnUnorderedEventList`) and not in module
  `EventGroups`, where it would be masked with the other control bits.
* `FREERTOS/croutine.c`, a smaller copy of the two-list delay scheme; `MEMORY/fifo.c` and `MEMORY/memb.c`; the rest of
  `USER/common.c`; the drivers and the application.

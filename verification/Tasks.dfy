/**
 The scheduler as tasks.c keeps it: a tick count that wraps at M, two delayed lists ordered by wrapped
 wake times, a cached next unblock time, and counters of the widths the source uses.  Every method is
 proved to do to `Abs()`, the state in absolute time, what its operation in KernelSpec does.
 */
module Tasks {
  import opened Modular
  import opened Sequences
  import opened StateLists
  import opened EventItems
  import opened Ownership
  import opened KernelSpec
  import opened KernelOps
  import opened KernelOwnership
  import opened KernelMutex
  import opened KernelRuns
  import opened KernelTicks
  import opened KernelPriority
  import opened KernelPreemption
  import opened DelayedLists

  class Scheduler {
    const cfg: Config
    const idle: TaskId

    var xTickCount: nat
    var xNumOfOverflows: nat
    var xNextTaskUnblockTime: nat
    var uxPendedTicks: nat
    var uxSchedulerSuspended: nat

    var xDelayedTaskList1: seq<TaskId>
    var xDelayedTaskList2: seq<TaskId>
    /** `pxDelayedTaskList == &xDelayedTaskList1`; the overflow pointer names the other list. */
    var firstIsCurrent: bool
    var pxReadyTasksLists: seq<Ring<TaskId>>
    var xSuspendedTaskList: seq<TaskId>
    var xTasksWaitingTermination: seq<TaskId>

    /** `pxContainer` and `xItemValue` of each task's state item; Delayed names whichever list holds it. */
    var container: map<TaskId, Home>
    var itemValue: map<TaskId, nat>

    var events: Events
    var uxPriority: map<TaskId, nat>
    var own: Own
    var pxCurrentTCB: TaskId
    var uxTopReadyPriority: nat
    var xYieldPending: bool
    var uxCurrentNumberOfTasks: nat
    var uxDeletedTasksWaitingCleanUp: nat

    /** How often the tick count has wrapped, and when each delayed task is due, in absolute time. */
    ghost var epoch: nat
    ghost var wake: map<TaskId, nat>

    // ---------------------------------------------------------------- abstraction

    function Current(): seq<TaskId>
      reads `firstIsCurrent, `xDelayedTaskList1, `xDelayedTaskList2
    {
      if firstIsCurrent then xDelayedTaskList1 else xDelayedTaskList2
    }

    function Overflow(): seq<TaskId>
      reads `firstIsCurrent, `xDelayedTaskList1, `xDelayedTaskList2
    {
      if firstIsCurrent then xDelayedTaskList2 else xDelayedTaskList1
    }

    ghost function L(): Lists
      reads this
    {
      Lists(container, pxReadyTasksLists, Current() + Overflow(), xSuspendedTaskList, xTasksWaitingTermination)
    }

    ghost function Abs(): K
      reads this
    {
      K(cfg, Clock(cfg.M * epoch + xTickCount, uxPendedTicks, uxSchedulerSuspended), uxPriority, L(), wake, events, own,
        Cpu(pxCurrentTCB, idle, uxTopReadyPriority, xYieldPending), uxCurrentNumberOfTasks, uxDeletedTasksWaitingCleanUp)
    }

    /** The wrapped representation stands for the absolute one. */
    ghost predicate Linked()
      reads `xTickCount, `xNumOfOverflows, `xNextTaskUnblockTime, `firstIsCurrent, `xDelayedTaskList1, `xDelayedTaskList2,
        `itemValue, `epoch, `wake
    {
      && xTickCount < cfg.M && xNumOfOverflows == epoch % UBASE && xNextTaskUnblockTime < cfg.M
      && Epochs(Current(), Overflow(), itemValue, wake, epoch, cfg.M)
      && NothingBefore(Current(), itemValue, xNextTaskUnblockTime)
    }

    ghost predicate Valid()
      reads this
    {
      Inv(Abs()) && Linked()
    }

    constructor (cfg: Config, idle: TaskId)
      requires cfg.M == 2 * cfg.inUse && 1 <= cfg.P < cfg.inUse
      ensures Valid() && Abs() == Started(cfg, idle) && this.cfg == cfg
    {
      hide Inv, OnlyIdle;
      this.cfg := cfg;
      this.idle := idle;
      xTickCount, xNumOfOverflows, xNextTaskUnblockTime, uxPendedTicks, uxSchedulerSuspended := 0, 0, cfg.M - 1, 0, 0;
      xDelayedTaskList1, xDelayedTaskList2, firstIsCurrent := [], [], true;
      pxReadyTasksLists := OnlyIdle(cfg.P, idle);
      xSuspendedTaskList, xTasksWaitingTermination := [], [];
      container, itemValue := map[idle := Ready(0)], map[];
      events := Events(map[idle := Nowhere], [], map[], map[idle := cfg.P]);
      uxPriority, own := map[idle := 0], Own(map[idle := 0], map[idle := 0], map[]);
      pxCurrentTCB, uxTopReadyPriority, xYieldPending := idle, 0, false;
      uxCurrentNumberOfTasks, uxDeletedTasksWaitingCleanUp := 1, 0;
      epoch, wake := 0, map[];
      new;
      StartedInv(cfg, idle);
      assert Current() + Overflow() == [];
      assert Linked();
      assert Abs() == Started(cfg, idle);
    }

    // ---------------------------------------------------------------- list moves

    /** `uxListRemove` on an item of either delayed list. */
    method RemoveDelayed(t: TaskId)
      requires Linked() && NoDup(Current() + Overflow())
      modifies `xDelayedTaskList1, `xDelayedTaskList2
      ensures Linked() && Current() + Overflow() == Without(old(Current() + Overflow()), t)
    {
      hide Epochs, NothingBefore, Without, NoDup;
      ghost var cur, ovf := Current(), Overflow();
      WithoutEither(cur, ovf, t);
      WithoutEpochs(cur, ovf, itemValue, wake, epoch, cfg.M, t);
      WithoutBefore(cur, itemValue, xNextTaskUnblockTime, t);
      if t in xDelayedTaskList1 {
        xDelayedTaskList1 := Without(xDelayedTaskList1, t);
      } else {
        xDelayedTaskList2 := Without(xDelayedTaskList2, t);
      }
    }

    /** `uxListRemove( &( pxTCB->xStateListItem ) )`. */
    method ListRemove(t: TaskId)
      requires Linked() && Placed(L()) && t in container
      modifies `pxReadyTasksLists, `xDelayedTaskList1, `xDelayedTaskList2, `xSuspendedTaskList, `xTasksWaitingTermination, `container
      ensures Linked() && Abs() == old(Abs()).(lists := Leave(old(L()), t))
      ensures L() == Leave(old(L()), t)
    {
      hide Linked, Current, Overflow, Placed, RingRemove, Without, NoDup;
      PlacedParts(L(), t);
      match container[t] {
        case Ready(p) =>
          pxReadyTasksLists := pxReadyTasksLists[p := RingRemove(pxReadyTasksLists[p], t)];
        case Delayed =>
          RemoveDelayed(t);
        case Suspended =>
          xSuspendedTaskList := Without(xSuspendedTaskList, t);
        case Termination =>
          xTasksWaitingTermination := Without(xTasksWaitingTermination, t);
        case Unlisted =>
          assert container[t := Unlisted] == container;
      }
      container := container[t := Unlisted];
    }

    /** A task leaves its state list and any event list. */
    method LeaveLists(t: TaskId)
      requires Linked() && Placed(L()) && Consistent(events) && t in container && t in events.at
      modifies `pxReadyTasksLists, `xDelayedTaskList1, `xDelayedTaskList2, `xSuspendedTaskList, `xTasksWaitingTermination,
        `container, `events
      ensures Linked() && Abs() == old(Abs()).(lists := Leave(old(L()), t), ev := EventItems.Remove(old(events), t))
    {
      hide Linked, Current, Overflow, Placed, Consistent, Leave, EventItems.Remove;
      ListRemove(t);
      events := EventItems.Remove(events, t);
    }

    /** `prvAddTaskToReadyList`. */
    method AddTaskToReadyList(t: TaskId)
      requires Placed(L()) && t in uxPriority && uxPriority[t] < |pxReadyTasksLists|
      modifies `pxReadyTasksLists, `container, `uxTopReadyPriority
      ensures Abs() == old(Abs()).(lists := JoinReady(old(L()), t, uxPriority[t]), cpu := Recorded(old(Abs()).cpu, uxPriority[t]))
      ensures old(Linked()) ==> Linked()
    {
      hide Placed, Linked, Current, Overflow, RingInsertEnd;
      ReadyRing(L(), uxPriority[t]);
      var p := uxPriority[t];
      if p > uxTopReadyPriority {
        uxTopReadyPriority := p;
      }
      pxReadyTasksLists := pxReadyTasksLists[p := RingInsertEnd(pxReadyTasksLists[p], t)];
      container := container[t := Ready(p)];
    }

    /** The body shared by every wake-up: out of the state list and any event list, into the ready list. */
    method MoveToReady(t: TaskId)
      requires Linked() && Placed(L()) && Consistent(events) && t in container && t in events.at
      requires t in uxPriority && uxPriority[t] < |pxReadyTasksLists|
      modifies `pxReadyTasksLists, `xDelayedTaskList1, `xDelayedTaskList2, `xSuspendedTaskList, `xTasksWaitingTermination,
        `container, `uxTopReadyPriority, `events
      ensures Linked() && Abs() == MakeReady(old(Abs()), t)
    {
      hide Linked, Current, Overflow, Placed, Consistent, Leave, JoinReady, EventItems.Remove;
      LeaveParts(L(), t);
      LeaveLists(t);
      AddTaskToReadyList(t);
    }

    // ---------------------------------------------------------------- ticks

    /** `prvResetNextTaskUnblockTime`. */
    method ResetNextTaskUnblockTime()
      requires cfg.M > 0 && Epochs(Current(), Overflow(), itemValue, wake, epoch, cfg.M)
      requires (forall t :: t in Current() ==> t in wake) && Sorted(Current(), wake)
      modifies `xNextTaskUnblockTime
      ensures xNextTaskUnblockTime < cfg.M && NothingBefore(Current(), itemValue, xNextTaskUnblockTime)
    {
      if Current() == [] {
        xNextTaskUnblockTime := cfg.M - 1;
      } else {
        HeadIsNext(Current(), Overflow(), itemValue, wake, epoch, cfg.M);
        xNextTaskUnblockTime := itemValue[Current()[0]];
      }
    }

    /** The same, between steps: nothing but the cached time changes. */
    method ResetUnblockTime()
      requires Linked() && Core(Abs(), Abs().clock.now + 1)
      modifies `xNextTaskUnblockTime
      ensures Linked() && Abs() == old(Abs())
    {
      hide Core, Current, Overflow, Epochs, NothingBefore, Sorted;
      CurrentSorted(Abs(), Current(), Overflow());
      ResetNextTaskUnblockTime();
    }

    /** `taskSWITCH_DELAYED_LISTS`, whose assertion that the current list is empty always holds. */
    method SwitchDelayedLists()
      requires cfg.M > 0 && Epochs(Current(), Overflow(), itemValue, wake, epoch, cfg.M)
      requires (forall t :: t in Overflow() ==> t in wake) && Sorted(Overflow(), wake)
      requires Current() == [] && xNumOfOverflows == epoch % UBASE
      modifies `firstIsCurrent, `xNumOfOverflows, `epoch, `xNextTaskUnblockTime
      ensures epoch == old(epoch) + 1 && xNumOfOverflows == epoch % UBASE
      ensures Current() == old(Overflow()) && Overflow() == [] && Current() + Overflow() == old(Current() + Overflow())
      ensures Epochs(Current(), Overflow(), itemValue, wake, epoch, cfg.M)
      ensures xNextTaskUnblockTime < cfg.M && NothingBefore(Current(), itemValue, xNextTaskUnblockTime)
    {
      SwapEpochs(Overflow(), itemValue, wake, epoch, cfg.M);
      firstIsCurrent := !firstIsCurrent;
      xNumOfOverflows := (xNumOfOverflows + 1) % UBASE;
      epoch := epoch + 1;
      ResetNextTaskUnblockTime();
    }

    /** The loop of `xTaskIncrementTick`: unblock tasks from the head until one is not due. */
    method UnblockExpired() returns (xSwitchRequired: bool)
      requires Linked() && Core(Abs(), Abs().clock.now)
      modifies `pxReadyTasksLists, `xDelayedTaskList1, `xDelayedTaskList2, `xSuspendedTaskList, `xTasksWaitingTermination,
        `container, `uxTopReadyPriority, `events, `xNextTaskUnblockTime
      ensures Linked() && Abs() == ReleaseDue(old(Abs()))
      ensures xSwitchRequired <==> SomeWoken(old(Abs()), Abs().lists.delayed)
    {
      hide Core, MakeReady, Epochs, NothingBefore, ListsOk, EventsOk, Owned, Configured, Placed, Consistent, SomeWoken, Without, ReleaseDue;
      ghost var s := Abs();
      NobodyWoken(s);
      xSwitchRequired := false;
      while true
        invariant Linked() && Core(Abs(), s.clock.now) && Abs().clock == s.clock && ReleaseDue(Abs()) == ReleaseDue(s)
        invariant forall t :: t in Abs().lists.delayed ==> t in s.lists.delayed
        invariant xSwitchRequired <==> SomeWoken(s, Abs().lists.delayed)
        decreases |Abs().lists.delayed|
      {
        ghost var a := Abs();
        UnblockHead(a, Current(), Overflow(), itemValue, epoch, xTickCount);
        if Current() == [] {
          xNextTaskUnblockTime := cfg.M - 1;
          NothingBeforeEmpty(itemValue, xNextTaskUnblockTime);
          break;
        }
        var t := Current()[0];
        if xTickCount < itemValue[t] {
          xNextTaskUnblockTime := itemValue[t];
          break;
        }
        MoveToReady(t);
        WokenStep(s, a.lists.delayed, Abs().lists.delayed, t);
        if uxPriority[t] >= uxPriority[pxCurrentTCB] {
          xSwitchRequired := true;
        }
      }
    }

    /** The count goes up by one, and the delayed lists change places when it wraps. */
    method AdvanceTick()
      requires Linked() && Core(Abs(), Abs().clock.now + 1)
      modifies `xTickCount, `firstIsCurrent, `xNumOfOverflows, `epoch, `xNextTaskUnblockTime
      ensures Linked() && Abs() == old(Abs()).(clock := old(Abs().clock).(now := old(Abs().clock.now) + 1))
    {
      hide Core, Epochs, NothingBefore;
      ghost var cur, ovf := Current(), Overflow();
      NextDue(Abs(), cur, ovf);
      NextEpoch(epoch, cfg.M);
      xTickCount := WrapAdd(xTickCount, 1, cfg.M);
      if xTickCount == 0 {
        CurrentEmptyAtWrap(cur, ovf, itemValue, wake, epoch, cfg.M);
        SwitchDelayedLists();
      }
    }

    /** The list is looked at only when the count has reached the cached time. */
    method WakeDelayed() returns (xSwitchRequired: bool)
      requires Linked() && Core(Abs(), Abs().clock.now)
      modifies `pxReadyTasksLists, `xDelayedTaskList1, `xDelayedTaskList2, `xSuspendedTaskList, `xTasksWaitingTermination,
        `container, `uxTopReadyPriority, `events, `xNextTaskUnblockTime
      ensures Linked() && IsReleased(old(Abs()), Abs())
      ensures xSwitchRequired <==> SomeWoken(old(Abs()), Abs().lists.delayed)
    {
      hide Core, Epochs, NothingBefore, ReleaseDue, SomeWoken, Sorted;
      xSwitchRequired := false;
      if xTickCount >= xNextTaskUnblockTime {
        xSwitchRequired := UnblockExpired();
      } else {
        SkipIsSafe(Current(), Overflow(), itemValue, wake, epoch, cfg.M, xTickCount, xNextTaskUnblockTime);
        DelayedParts(Abs(), Current(), Overflow());
        NobodyWoken(Abs());
      }
    }

    /** `xTaskIncrementTick`. */
    method IncrementTick() returns (xSwitchRequired: bool)
      requires Linked() && Core(Abs(), Abs().clock.now + 1)
      modifies this
      ensures Linked()
      ensures old(uxSchedulerSuspended) == 0 ==> Ticked(old(Abs()), Abs(), xSwitchRequired)
      ensures old(uxSchedulerSuspended) > 0 ==>
        && Abs() == old(Abs()).(clock := old(Abs().clock).(pended := (old(uxPendedTicks) + 1) % UBASE))
        && xSwitchRequired == old(xYieldPending)
      ensures old(Inv(Abs())) ==> IsTick(old(Abs()), Abs())
    {
      hide Linked, Current, Overflow, Inv, Core, SomeWoken, ReleaseDue, TickSwitches;
      ghost var s := Abs();
      xSwitchRequired := false;
      if uxSchedulerSuspended == 0 {
        TimePasses(s);
        AdvanceTick();
        ghost var u := Abs();
        xSwitchRequired := WakeDelayed();
        SwitchesWhen(s, u, Abs());
        if |pxReadyTasksLists[uxPriority[pxCurrentTCB]].items| > 1 {
          xSwitchRequired := true;
        }
      } else {
        uxPendedTicks := (uxPendedTicks + 1) % UBASE;
      }
      if xYieldPending {
        xSwitchRequired := true;
      }
      if Inv(s) { TickKeeps(s); }
    }

    /** `vTaskSuspendAll`. */
    method SuspendAll()
      requires Valid()
      modifies `uxSchedulerSuspended
      ensures Valid() && Abs() == SuspendScheduler(old(Abs()))
    {
      hide Inv, Linked, Current, Overflow;
      SuspendAllKeeps(Abs());
      uxSchedulerSuspended := uxSchedulerSuspended + 1;
    }

    /** One turn of the first loop of `xTaskResumeAll`. */
    method ReadyOnePending()
      requires Linked() && Core(Abs(), Abs().clock.now + 1) && events.pending != []
      modifies `pxReadyTasksLists, `xDelayedTaskList1, `xDelayedTaskList2, `xSuspendedTaskList, `xTasksWaitingTermination,
        `container, `uxTopReadyPriority, `events, `xYieldPending
      ensures Linked() && DrainTurn(old(Abs()), Abs())
    {
      hide Core, Linked, Current, Overflow, MakeReady, DrainPending, Placed, Consistent;
      ghost var a := Abs();
      var t := events.pending[0];
      DrainStep(a, t);
      MoveToReady(t);
      if uxPriority[t] >= uxPriority[pxCurrentTCB] {
        xYieldPending := true;
      }
      assert Abs() == MarkYield(MakeReady(a, t), a.prio[t] >= a.prio[a.cpu.current]);
    }

    /** The first loop of `xTaskResumeAll`: tasks readied while the scheduler was suspended. */
    method ReadyPending()
      requires Linked() && Core(Abs(), Abs().clock.now + 1)
      modifies `pxReadyTasksLists, `xDelayedTaskList1, `xDelayedTaskList2, `xSuspendedTaskList, `xTasksWaitingTermination,
        `container, `uxTopReadyPriority, `events, `xNextTaskUnblockTime, `xYieldPending
      ensures Linked() && IsDrained(old(Abs()), Abs())
    {
      hide Core, Linked, Current, Overflow, DrainPending;
      ghost var s := Abs();
      var any := false;
      while events.pending != []
        invariant Linked() && Core(Abs(), s.clock.now + 1) && Abs().clock == s.clock && DrainPending(Abs()) == DrainPending(s)
        decreases |events.pending|
      {
        ReadyOnePending();
        any := true;
      }
      DrainDone(Abs());
      if any {
        ResetUnblockTime();
      }
    }

    /** One turn of the second loop: a switch the tick asks for is left pending. */
    method ReplayOneTick()
      requires Linked() && Core(Abs(), Abs().clock.now + 1) && uxSchedulerSuspended == 0
      modifies this
      ensures Linked() && uxSchedulerSuspended == 0 && IsReplayed(old(Abs()), Abs())
    {
      hide Core, Linked, Current, Overflow, TickNow, TickSwitches;
      ghost var a := Abs();
      ReplayTickExact(a);
      TickNowExact(a);
      var xSwitchRequired := IncrementTick();
      if xSwitchRequired {
        xYieldPending := true;
      }
      assert Abs() == ReplayTick(a);
    }

    /** The second loop: the ticks that were held back. */
    method ReplayTicks()
      requires Linked() && Core(Abs(), Abs().clock.now + 1) && uxSchedulerSuspended == 0
      modifies this
      ensures Linked() && uxSchedulerSuspended == 0
      ensures var r := Replay(old(Abs()), old(uxPendedTicks)); Abs() == r.(clock := r.clock.(pended := 0))
    {
      hide Core, Linked, Current, Overflow, ReplayTick;
      ghost var s := Abs();
      var uxPendedCounts := uxPendedTicks;
      while uxPendedCounts > 0
        invariant Linked() && Core(Abs(), Abs().clock.now + 1) && uxSchedulerSuspended == 0
        invariant Replay(Abs(), uxPendedCounts) == Replay(s, s.clock.pended)
      {
        ReplayOneTick();
        uxPendedCounts := uxPendedCounts - 1;
      }
      uxPendedTicks := 0;
    }

    /** `xTaskResumeAll`. */
    method ResumeAll() returns (xAlreadyYielded: bool)
      requires Valid() && uxSchedulerSuspended > 0
      modifies this
      ensures Valid() && Abs() == KernelSpec.ResumeAll(old(Abs()))
      ensures xAlreadyYielded <==> uxSchedulerSuspended == 0 && xYieldPending
    {
      hide Core, Linked, Current, Overflow, DrainPending, Replay;
      ghost var s := Abs();
      ResumeAllKeeps(s);
      xAlreadyYielded := false;
      uxSchedulerSuspended := uxSchedulerSuspended - 1;
      if uxSchedulerSuspended == 0 {
        DrainKeepsCore(s);
        DrainPendingKeeps(Abs());
        ReadyPending();
        ReplayTicks();
        if xYieldPending {
          xAlreadyYielded := true;
        }
      }
    }

    // ---------------------------------------------------------------- context switch

    /** The search of `taskSELECT_HIGHEST_PRIORITY_TASK`; its assertion holds because the idle task is ready. */
    method HighestReadyPriority() returns (uxTopPriority: nat)
      requires uxTopReadyPriority < |pxReadyTasksLists| && pxReadyTasksLists[0].items != []
      ensures uxTopPriority <= uxTopReadyPriority && pxReadyTasksLists[uxTopPriority].items != []
      ensures forall p :: uxTopPriority < p <= uxTopReadyPriority ==> pxReadyTasksLists[p].items == []
      ensures uxTopPriority == HighestFrom(pxReadyTasksLists, uxTopReadyPriority)
    {
      uxTopPriority := uxTopReadyPriority;
      while pxReadyTasksLists[uxTopPriority].items == []
        invariant uxTopPriority <= uxTopReadyPriority
        invariant HighestFrom(pxReadyTasksLists, uxTopPriority) == HighestFrom(pxReadyTasksLists, uxTopReadyPriority)
        decreases uxTopPriority
      {
        assert uxTopPriority != 0;
        uxTopPriority := uxTopPriority - 1;
      }
    }

    /** `taskSELECT_HIGHEST_PRIORITY_TASK`. */
    method SelectHighestPriorityTask()
      requires Linked() && Placed(L()) && uxTopReadyPriority < |pxReadyTasksLists| && pxReadyTasksLists[0].items != []
      modifies `pxReadyTasksLists, `pxCurrentTCB, `uxTopReadyPriority
      ensures Linked() && var p := HighestFrom(old(pxReadyTasksLists), old(uxTopReadyPriority));
        && old(pxReadyTasksLists)[p].index <= |old(pxReadyTasksLists)[p].items|
        && pxReadyTasksLists == old(pxReadyTasksLists)[p := RingNext(old(pxReadyTasksLists)[p])]
        && pxCurrentTCB == RingCurrent(pxReadyTasksLists[p]) && uxTopReadyPriority == p
    {
      hide Linked, Current, Overflow, HighestFrom, Placed, NoDup, RingNext, RingCurrent;
      var uxTopPriority := HighestReadyPriority();
      ReadyRing(L(), uxTopPriority);
      pxReadyTasksLists := pxReadyTasksLists[uxTopPriority := RingNext(pxReadyTasksLists[uxTopPriority])];
      pxCurrentTCB := RingCurrent(pxReadyTasksLists[uxTopPriority]);
      uxTopReadyPriority := uxTopPriority;
    }

    /** `vTaskSwitchContext`. */
    method SwitchContext()
      requires Valid()
      modifies `xYieldPending, `pxReadyTasksLists, `pxCurrentTCB, `uxTopReadyPriority
      ensures Valid() && Abs() == KernelSpec.SwitchContext(old(Abs()))
    {
      hide Core, Linked, Current, Overflow, HighestFrom, Placed, RingNext, RingCurrent;
      SwitchContextKeeps(Abs());
      SelectionParts(Abs());
      if uxSchedulerSuspended != 0 {
        xYieldPending := true;
      } else {
        xYieldPending := false;
        SelectHighestPriorityTask();
      }
    }

    // ---------------------------------------------------------------- blocking

    /** `vListInsert( pxDelayedTaskList, ... )`. */
    method InsertInCurrent(t: TaskId)
      requires t in itemValue && AllIn(Current(), itemValue)
      modifies `xDelayedTaskList1, `xDelayedTaskList2
      ensures Current() == SortedInsert(old(Current()), itemValue, t) && Overflow() == old(Overflow())
    {
      if firstIsCurrent {
        xDelayedTaskList1 := SortedInsert(xDelayedTaskList1, itemValue, t);
      } else {
        xDelayedTaskList2 := SortedInsert(xDelayedTaskList2, itemValue, t);
      }
    }

    /** `vListInsert( pxOverflowDelayedTaskList, ... )`. */
    method InsertInOverflow(t: TaskId)
      requires t in itemValue && AllIn(Overflow(), itemValue)
      modifies `xDelayedTaskList1, `xDelayedTaskList2
      ensures Overflow() == SortedInsert(old(Overflow()), itemValue, t) && Current() == old(Current())
    {
      if firstIsCurrent {
        xDelayedTaskList2 := SortedInsert(xDelayedTaskList2, itemValue, t);
      } else {
        xDelayedTaskList1 := SortedInsert(xDelayedTaskList1, itemValue, t);
      }
    }

    /** The part of `prvAddCurrentTaskToDelayedList` that files a wake time in the list of its epoch. */
    method FileWakeTime(t: TaskId, xTicksToWait: nat)
      requires Linked() && xTicksToWait < cfg.M && t !in Current() && t !in Overflow()
      requires InOrder(L().delayed, wake)
      modifies `xDelayedTaskList1, `xDelayedTaskList2, `container, `itemValue, `wake, `xNextTaskUnblockTime
      ensures Linked()
      ensures wake == old(wake)[t := cfg.M * epoch + xTickCount + xTicksToWait]
      ensures Inserted(old(L()).delayed, L().delayed, wake, t)
      ensures container == old(container)[t := Delayed]
    {
      hide Current, Overflow, Epochs, NothingBefore, SortedInsert, AllIn, InOrder, Inserted, WrapAdd;
      ghost var cur, ovf, values, times := Current(), Overflow(), itemValue, wake;
      var xTimeToWake := WrapAdd(xTickCount, xTicksToWait, cfg.M);
      itemValue := itemValue[t := xTimeToWake];
      wake := wake[t := cfg.M * epoch + xTickCount + xTicksToWait];
      if xTimeToWake < xTickCount {
        FiledInOverflow(cur, ovf, values, times, epoch, cfg.M, xTickCount, xNextTaskUnblockTime, t, xTicksToWait, itemValue, wake);
        InsertInOverflow(t);
      } else {
        FiledInCurrent(cur, ovf, values, times, epoch, cfg.M, xTickCount, xNextTaskUnblockTime, t, xTicksToWait, itemValue, wake);
        InsertInCurrent(t);
        if xTimeToWake < xNextTaskUnblockTime {
          xNextTaskUnblockTime := xTimeToWake;
        }
      }
      container := container[t := Delayed];
    }

    /** `vListInsertEnd( &xSuspendedTaskList, ... )`. */
    method AddToSuspended(t: TaskId)
      requires Linked()
      modifies `xSuspendedTaskList, `container
      ensures Linked() && xSuspendedTaskList == old(xSuspendedTaskList) + [t] && container == old(container)[t := Suspended]
    {
      hide Linked, Current, Overflow;
      xSuspendedTaskList := xSuspendedTaskList + [t];
      container := container[t := Suspended];
    }

    /** `prvAddCurrentTaskToDelayedList`; `s` is the state before the caller placed the event item. */
    method AddCurrentTaskToDelayedList(xTicksToWait: nat, xCanBlockIndefinitely: bool, ghost s: K)
      requires Linked() && Inv(s) && Abs() == s.(ev := events) && IsReady(s.lists, pxCurrentTCB) && xTicksToWait < cfg.M
      modifies `pxReadyTasksLists, `xDelayedTaskList1, `xDelayedTaskList2, `xSuspendedTaskList, `xTasksWaitingTermination,
        `container, `itemValue, `wake, `xNextTaskUnblockTime
      ensures Linked() && Abs() == Block(s, events, xTicksToWait, xCanBlockIndefinitely)
    {
      hide Current, Overflow, Core, Placed, Linked, Leave, Block, AllIn, InOrder, Inserted;
      var t := pxCurrentTCB;
      BlockingParts(s, t);
      assert L() == s.lists;
      ListRemove(t);
      NotDelayed(L(), t, Current(), Overflow());
      if xTicksToWait == cfg.M - 1 && xCanBlockIndefinitely {
        BlockForEver(s, events, xTicksToWait);
        AddToSuspended(t);
      } else {
        FileWakeTime(t, xTicksToWait);
        BlockUntil(s, events, xTicksToWait, xCanBlockIndefinitely, L().delayed, wake);
      }
    }

    /** `vTaskDelay`'s and `vTaskDelayUntil`'s use of it. */
    method DelayCurrentTask(xTicksToDelay: nat)
      requires Valid() && MayBlock(Abs(), xTicksToDelay)
      modifies this
      ensures Valid() && Abs() == Delay(old(Abs()), xTicksToDelay)
    {
      hide Core, Linked, Current, Overflow, Block;
      ghost var s := Abs();
      DelayKeeps(s, xTicksToDelay);
      AddCurrentTaskToDelayedList(xTicksToDelay, false, s);
    }

    /** `vTaskPlaceOnEventList`. */
    method PlaceOnEventList(l: ListId, xTicksToWait: nat)
      requires Valid() && MayBlock(Abs(), xTicksToWait) && l in events.waiting
      modifies this
      ensures Valid() && Abs() == KernelOps.PlaceOnEventList(old(Abs()), l, xTicksToWait)
    {
      hide Inv, Linked, Current, Overflow, Block, InsertSorted, Consistent, ListsOk, EventsOk, Owned, Placed, Configured;
      ghost var s := Abs();
      InvParts(s);
      PlaceOnEventListKeeps(s, l, xTicksToWait);
      events := InsertSorted(events, l, pxCurrentTCB);
      AddCurrentTaskToDelayedList(xTicksToWait, true, s);
    }

    /** `vTaskPlaceOnUnorderedEventList`. */
    method PlaceOnUnorderedEventList(l: ListId, xItemValue: nat, xTicksToWait: nat)
      requires Valid() && MayBlock(Abs(), xTicksToWait) && l in events.waiting
      requires uxSchedulerSuspended != 0 && xItemValue < cfg.inUse
      modifies this
      ensures Valid() && Abs() == PlaceOnUnordered(old(Abs()), l, xItemValue, xTicksToWait)
    {
      hide Inv, Linked, Current, Overflow, Block, Append, Consistent, ListsOk, EventsOk, Owned, Placed, Configured;
      ghost var s := Abs();
      InvParts(s);
      PlaceOnUnorderedKeeps(s, l, xItemValue, xTicksToWait);
      events := Append(events, l, pxCurrentTCB, xItemValue + cfg.inUse);
      AddCurrentTaskToDelayedList(xTicksToWait, true, s);
    }

    // ---------------------------------------------------------------- waking

    /** A woken task is readied at once, or held on the pending list while the scheduler is suspended. */
    method WakeOrHold(t: TaskId)
      requires Linked() && Placed(L()) && Consistent(events) && t in container && t in events.at
      requires t in uxPriority && uxPriority[t] < |pxReadyTasksLists|
      modifies `pxReadyTasksLists, `xDelayedTaskList1, `xDelayedTaskList2, `xSuspendedTaskList, `xTasksWaitingTermination,
        `container, `uxTopReadyPriority, `events
      ensures Linked() && Abs() == if uxSchedulerSuspended == 0 then MakeReady(old(Abs()), t) else HoldPending(old(Abs()), t)
    {
      hide Linked, Current, Overflow, Placed, Consistent, MakeReady, Defer;
      if uxSchedulerSuspended == 0 {
        MoveToReady(t);
      } else {
        events := Defer(events, t);
      }
    }

    /** `xTaskRemoveFromEventList`: true when the woken task should run before the running one. */
    method RemoveFromEventList(l: ListId) returns (xReturn: bool)
      requires Valid() && l in events.waiting && events.waiting[l] != []
      modifies this
      ensures Valid() && Abs() == WakeHead(old(Abs()), l)
      ensures var t := old(events.waiting[l][0]);
        t in uxPriority && pxCurrentTCB in uxPriority && xReturn == (uxPriority[t] > uxPriority[pxCurrentTCB])
    {
      hide Core, Linked, Current, Overflow, MakeReady, HoldPending, Placed, Consistent;
      ghost var s := Abs();
      var t := events.waiting[l][0];
      WakeHeadKeeps(s, l);
      WaiterKnown(s, l, t, s.clock.now + 1);
      TaskParts(s, t);
      WakeOrHold(t);
      xReturn := uxPriority[t] > uxPriority[pxCurrentTCB];
      if xReturn {
        xYieldPending := true;
      }
      assert Abs() == WakeHead(s, l);
    }

    /** `xTaskRemoveFromUnorderedEventList`. */
    method RemoveFromUnorderedEventList(t: TaskId, xItemValue: nat) returns (xReturn: bool)
      requires Valid() && t in events.at && events.at[t].On? && uxSchedulerSuspended != 0 && xItemValue < cfg.inUse
      modifies this
      ensures Valid() && Abs() == WakeUnordered(old(Abs()), t, xItemValue)
      ensures t in uxPriority && pxCurrentTCB in uxPriority && xReturn == (uxPriority[t] > uxPriority[pxCurrentTCB])
    {
      hide Inv, Linked, Current, Overflow, MakeReady, Placed, Consistent, SetValue;
      ghost var s := Abs();
      WakeUnorderedKeeps(s, t, xItemValue);
      WaiterParts(s, t);
      AnswerConsistent(events, t, xItemValue + cfg.inUse);
      events := SetValue(events, t, xItemValue + cfg.inUse);
      MoveToReady(t);
      xReturn := uxPriority[t] > uxPriority[pxCurrentTCB];
      if xReturn {
        xYieldPending := true;
      }
      assert Abs() == WakeUnordered(s, t, xItemValue);
    }

    /** `uxTaskResetEventItemValue`, for the running task. */
    method ResetEventItemValue() returns (uxReturn: nat)
      requires Valid()
      modifies `events
      ensures Valid() && Abs() == ResetItemValue(old(Abs()))
      ensures pxCurrentTCB in old(events).value && uxReturn == old(events).value[pxCurrentTCB]
    {
      hide Inv, Linked, Current, Overflow, SetValue;
      CurrentParts(Abs());
      TaskKnown(Abs(), pxCurrentTCB);
      ResetItemValueKeeps(Abs());
      uxReturn := events.value[pxCurrentTCB];
      events := SetValue(events, pxCurrentTCB, cfg.P - uxPriority[pxCurrentTCB]);
    }

    /** `prvTaskIsTaskSuspended`. */
    predicate TaskIsTaskSuspended(t: TaskId)
      reads this
      ensures TaskIsTaskSuspended(t) <==> IsSuspended(Abs(), t)
    {
      t in container && container[t] == Suspended && t in events.at && events.at[t] == Nowhere
    }

    /** `vTaskResume`; `xYieldRequired` says whether it yields. */
    method Resume(t: TaskId) returns (xYieldRequired: bool)
      requires Valid()
      modifies this
      ensures Valid() && Abs() == KernelOps.Resume(old(Abs()), t)
      ensures xYieldRequired == TaskAsks(old(Abs()), ResumeTask(t))
    {
      hide Inv, Linked, Current, Overflow, MakeReady, Placed, Consistent;
      ResumeKeeps(Abs(), t);
      CurrentParts(Abs());
      xYieldRequired := false;
      if t != pxCurrentTCB && TaskIsTaskSuspended(t) {
        TaskParts(Abs(), t);
        MoveToReady(t);
        xYieldRequired := uxPriority[t] >= uxPriority[pxCurrentTCB];
      }
    }

    /** `xTaskResumeFromISR`. */
    method ResumeFromISR(t: TaskId) returns (xYieldRequired: bool)
      requires Valid()
      modifies this
      ensures Valid() && Abs() == KernelOps.ResumeFromISR(old(Abs()), t)
      ensures xYieldRequired == TaskAsks(old(Abs()), ResumeTaskFromISR(t))
    {
      hide Inv, Linked, Current, Overflow, MakeReady, HoldPending, Placed, Consistent;
      ResumeKeeps(Abs(), t);
      CurrentParts(Abs());
      xYieldRequired := false;
      if TaskIsTaskSuspended(t) {
        TaskParts(Abs(), t);
        if uxSchedulerSuspended == 0 {
          xYieldRequired := uxPriority[t] >= uxPriority[pxCurrentTCB];
        }
        WakeOrHold(t);
      }
    }

    // ---------------------------------------------------------------- suspend, create, delete

    /** The first critical section of `vTaskSuspend`. */
    method MoveToSuspended(t: TaskId)
      requires Linked() && Placed(L()) && Consistent(events) && t in container && t in events.at
      modifies `pxReadyTasksLists, `xDelayedTaskList1, `xDelayedTaskList2, `xSuspendedTaskList, `xTasksWaitingTermination,
        `container, `events
      ensures Linked()
      ensures Abs() == old(Abs()).(lists := SuspendLists(old(L()), t), ev := EventItems.Remove(old(events), t))
    {
      hide Linked, Current, Overflow, Placed, Consistent, Leave, EventItems.Remove;
      LeaveParts(L(), t);
      LeaveLists(t);
      AddToSuspended(t);
    }

    /** `vTaskSuspend`. */
    method Suspend(t: TaskId) returns (xYieldRequired: bool)
      requires Valid() && Live(Abs(), t) && t != idle && (t == pxCurrentTCB ==> uxSchedulerSuspended == 0)
      modifies this
      ensures Valid() && Abs() == KernelOps.Suspend(old(Abs()), t)
      ensures xYieldRequired == TaskAsks(old(Abs()), SuspendTask(t))
    {
      hide Inv, Core, Linked, Current, Overflow, SuspendLists, EventItems.Remove, Placed, Consistent, Sorted;
      ghost var s := Abs();
      SuspendKeeps(s, t);
      CurrentParts(s);
      TaskParts(s, t);
      MoveToSuspended(t);
      InvCore(Abs());
      ResetUnblockTime();
      xYieldRequired := t == pxCurrentTCB;
    }

    /** The ownership and event item parts of the TCBs. */
    method SetRecords(o: Own, ev: Events)
      modifies `own, `events
      ensures Abs() == old(Abs()).(own := o, ev := ev) && own == o
    {
      hide Current, Overflow;
      own := o;
      events := ev;
    }

    /** `prvInitialiseNewTask`: a TCB whose items are in no list. */
    method InitialiseNewTask(t: TaskId, p: nat)
      requires Linked() && p < cfg.P
      modifies `uxPriority, `own, `events, `container
      ensures Linked() && Abs() == Initialised(old(Abs()), t, p)
    {
      hide Linked, Current, Overflow, NewOwn, NewEvents;
      SetRecords(NewOwn(own, t, p), NewEvents(events, t, cfg.P - p));
      uxPriority := uxPriority[t := p];
      container := container[t := Unlisted];
    }

    /** `xTaskCreate`, ending with `prvAddNewTaskToReadyList`. */
    method CreateTask(t: TaskId, p: nat) returns (xYieldRequired: bool)
      requires Valid() && t !in uxPriority && p < cfg.P
      modifies this
      ensures Valid() && Abs() == KernelOps.Create(old(Abs()), t, p)
      ensures xYieldRequired == TaskAsks(old(Abs()), TaskOp.CreateTask(t, p))
    {
      hide Inv, Linked, Current, Overflow, JoinReady, Placed, NewOwn, NewEvents;
      ghost var s := Abs();
      CurrentParts(s);
      CreateKeeps(s, t, p);
      ListsParts(s);
      NewTaskPlaced(s.lists, t);
      InitialiseNewTask(t, p);
      uxCurrentNumberOfTasks := uxCurrentNumberOfTasks + 1;
      AddTaskToReadyList(t);
      xYieldRequired := uxPriority[pxCurrentTCB] < uxPriority[t];
    }

    /** `prvDeleteTCB`: nothing of the task is left. */
    method DeleteTCB(t: TaskId)
      requires Linked()
      modifies `uxPriority, `own, `events, `container
      ensures Linked() && Abs() == Erased(old(Abs()), t)
    {
      hide Linked, Current, Overflow, ErasedOwn, ErasedEvents;
      SetRecords(ErasedOwn(own, t), ErasedEvents(events, t));
      uxPriority := uxPriority - {t};
      container := container - {t};
    }

    /** `vTaskDelete` on the running task leaves the rest to the idle task. */
    method AddToTermination(t: TaskId)
      requires Linked()
      modifies `xTasksWaitingTermination, `container, `uxDeletedTasksWaitingCleanUp
      ensures Linked() && xTasksWaitingTermination == old(xTasksWaitingTermination) + [t]
      ensures container == old(container)[t := Termination] && uxDeletedTasksWaitingCleanUp == old(uxDeletedTasksWaitingCleanUp) + 1
    {
      hide Linked, Current, Overflow;
      xTasksWaitingTermination := xTasksWaitingTermination + [t];
      container := container[t := Termination];
      uxDeletedTasksWaitingCleanUp := uxDeletedTasksWaitingCleanUp + 1;
    }

    method EraseTask(t: TaskId)
      requires Linked() && uxCurrentNumberOfTasks > 0
      modifies `uxCurrentNumberOfTasks, `uxPriority, `own, `events, `container
      ensures Linked() && Abs() == Erased(old(Abs()).(tasks := old(uxCurrentNumberOfTasks) - 1), t)
    {
      hide Linked, Current, Overflow, ErasedOwn, ErasedEvents;
      uxCurrentNumberOfTasks := uxCurrentNumberOfTasks - 1;
      DeleteTCB(t);
    }

    /** `vTaskDelete`. */
    method Delete(t: TaskId) returns (xYieldRequired: bool)
      requires Valid() && MayDelete(Abs(), t)
      modifies this
      ensures Valid() && Abs() == KernelRuns.Delete(old(Abs()), t)
      ensures xYieldRequired == TaskAsks(old(Abs()), DeleteTask(t))
    {
      hide Inv, Core, Linked, Current, Overflow, Leave, EventItems.Remove, Placed, Consistent, Forget, DeleteSelf, Erased;
      ghost var s := Abs();
      DeleteKeeps(s, t);
      CurrentParts(s);
      TaskParts(s, t);
      LeaveLists(t);
      xYieldRequired := t == pxCurrentTCB;
      if t == pxCurrentTCB {
        DeleteSelfIs(s);
        AddToTermination(t);
        assert Abs() == KernelRuns.Delete(s, t);
      } else {
        DeletableOther(s, t);
        ForgetIs(s, t);
        EraseTask(t);
        assert Abs() == KernelRuns.Delete(s, t);
        InvCore(Abs());
        ResetUnblockTime();
      }
    }

    /** The counts go down and the TCB goes. */
    method EraseTerminated(t: TaskId)
      requires Linked() && uxCurrentNumberOfTasks > 0 && uxDeletedTasksWaitingCleanUp > 0
      modifies `uxCurrentNumberOfTasks, `uxDeletedTasksWaitingCleanUp, `uxPriority, `own, `events, `container
      ensures Linked()
      ensures Abs() == Erased(old(Abs()).(tasks := old(uxCurrentNumberOfTasks) - 1, cleanUp := old(uxDeletedTasksWaitingCleanUp) - 1), t)
    {
      hide Linked, Current, Overflow, ErasedOwn, ErasedEvents;
      uxCurrentNumberOfTasks := uxCurrentNumberOfTasks - 1;
      uxDeletedTasksWaitingCleanUp := uxDeletedTasksWaitingCleanUp - 1;
      DeleteTCB(t);
    }

    /** One turn of `prvCheckTasksWaitingTermination`, on the idle task. */
    method CleanUpDeletedTask()
      requires Valid() && MayCleanUp(Abs())
      modifies this
      ensures Valid() && Abs() == CleanUp(old(Abs()))
    {
      hide Inv, Linked, Current, Overflow, Leave, EventItems.Remove, Placed, Consistent, Forget, Erased;
      ghost var s := Abs();
      var t := xTasksWaitingTermination[0];
      CleanUpKeeps(s);
      CleanUpFirst(s);
      TaskParts(s, t);
      TerminatedTask(s, t);
      ForgetIs(s, t);
      ListRemove(t);
      EraseTerminated(t);
    }

    // ---------------------------------------------------------------- priorities

    /** Leaves and rejoins the ready lists at its present priority, if it was in one. */
    method Requeue(t: TaskId)
      requires Linked() && Placed(L()) && t in container && t in uxPriority && uxPriority[t] < |pxReadyTasksLists|
      modifies `pxReadyTasksLists, `xDelayedTaskList1, `xDelayedTaskList2, `xSuspendedTaskList, `xTasksWaitingTermination,
        `container, `uxTopReadyPriority
      ensures Linked() && Abs() == Requeued(old(Abs()), t)
    {
      hide Placed, Linked, Current, Overflow, Leave, JoinReady;
      LeaveParts(L(), t);
      if container[t].Ready? {
        ListRemove(t);
        AddTaskToReadyList(t);
      }
    }

    /** A new priority, what is recorded with it, and the ready list that goes with it. */
    method Reprice(t: TaskId, p: nat, o: Own, ev: Events)
      requires Linked() && Placed(L()) && t in container && p < |pxReadyTasksLists|
      modifies `pxReadyTasksLists, `xDelayedTaskList1, `xDelayedTaskList2, `xSuspendedTaskList, `xTasksWaitingTermination,
        `container, `uxTopReadyPriority, `uxPriority, `own, `events
      ensures Linked() && Abs() == Requeued(old(Abs()).(prio := old(uxPriority)[t := p], own := o, ev := ev), t) && own == o
    {
      hide Linked, Current, Overflow, Placed, Requeued;
      SetRecords(o, ev);
      uxPriority := uxPriority[t := p];
      Requeue(t);
    }

    /** `vTaskPrioritySet`. */
    method PrioritySet(t: TaskId, uxNewPriority: nat) returns (xYieldRequired: bool)
      requires Valid() && Live(Abs(), t) && t != idle && uxNewPriority < cfg.P
      modifies this
      ensures Valid() && Abs() == KernelOwnership.PrioritySet(old(Abs()), t, uxNewPriority)
      ensures xYieldRequired == TaskAsks(old(Abs()), SetTaskPriority(t, uxNewPriority))
    {
      hide Inv, Linked, Current, Overflow, Placed, Consistent, SetFreeValue, Rebased, Requeued, KernelOwnership.PrioritySet;
      ghost var s := Abs();
      PrioritySetKeeps(s, t, uxNewPriority);
      PrioritySetIs(s, t, uxNewPriority);
      CurrentParts(s);
      xYieldRequired := false;
      if own.base[t] != uxNewPriority {
        if uxNewPriority > own.base[t] {
          if t != pxCurrentTCB {
            if uxNewPriority >= uxPriority[pxCurrentTCB] {
              xYieldRequired := true;
            }
          }
        } else if t == pxCurrentTCB {
          xYieldRequired := true;
        }
        Reprice(t, if own.base[t] == uxPriority[t] then uxNewPriority else uxPriority[t],
                Rebased(own, t, uxNewPriority), SetFreeValue(cfg, events, t, cfg.P - uxNewPriority));
      }
    }

    /** `vTaskPriorityInherit`, for the holder of a mutex the running task wants. */
    method PriorityInherit(h: TaskId)
      requires Valid() && h in uxPriority && h in own.held && own.held[h] > 0
      modifies this
      ensures Valid() && Abs() == Inherit(old(Abs()), h)
    {
      hide Inv, Linked, Current, Overflow, Placed, Consistent, SetFreeValue, Repriced, Requeued;
      ghost var s := Abs();
      InheritKeeps(s, h);
      TaskParts(s, h);
      TaskKnown(s, h);
      if uxPriority[h] < uxPriority[pxCurrentTCB] {
        var ev := SetFreeValue(cfg, events, h, cfg.P - uxPriority[pxCurrentTCB]);
        RepricedIs(s, own, ev, h, uxPriority[pxCurrentTCB]);
        Reprice(h, uxPriority[pxCurrentTCB], own, ev);
      }
    }

    /** `xTaskPriorityDisinherit` on the holder that gives mutex `m`, with the mutex's own record. */
    method PriorityDisinherit(m: MutexId) returns (xReturn: bool)
      requires Valid() && m in own.mutexes && own.mutexes[m].holder == Task(pxCurrentTCB)
      modifies this
      ensures Valid() && Abs() == GiveBack(old(Abs()), m)
      ensures xReturn == Disinherits(old(Abs()))
    {
      hide Inv, Linked, Current, Overflow, Placed, Consistent, SetValue, Repriced, Requeued;
      ghost var s := Abs();
      var t := pxCurrentTCB;
      GiveBackKeeps(s, m);
      HolderFacts(s, m);
      TaskParts(s, t);
      var o := Release(own, t, m);
      TaskKnown(s, t);
      ReleasedCount(own, t, m);
      xReturn := uxPriority[t] != o.base[t] && o.held[t] == 0;
      if xReturn {
        var ev := SetValue(events, t, cfg.P - own.base[t]);
        RepricedIs(s, o, ev, t, own.base[t]);
        Reprice(t, own.base[t], o, ev);
      } else {
        own := o;
      }
    }

    // ---------------------------------------------------------------- mutexes

    /**
     The part of `xQueueGenericSend` that gives a mutex: a waiter is woken, or else the yield that losing an inherited
     priority asks for is heeded.
     */
    method GiveMutex(m: MutexId) returns (xYieldRequired: bool)
      requires Valid() && m in own.mutexes && own.mutexes[m].holder == Task(pxCurrentTCB) && m in events.waiting
      modifies this
      ensures Valid() && Abs() == KernelMutex.GiveMutex(old(Abs()), m)
      ensures old(events.waiting[m]) == [] ==> xYieldRequired == Disinherits(old(Abs()))
      ensures old(events.waiting[m]) != [] ==>
        var t := old(events.waiting[m][0]);
        t in uxPriority && pxCurrentTCB in uxPriority && xYieldRequired == (uxPriority[t] > uxPriority[pxCurrentTCB])
    {
      hide Inv, Linked, Current, Overflow, GiveBack, WakeHead, Disinherits;
      GiveBackFrame(Abs(), m);
      GiveBackKeeps(Abs(), m);
      xYieldRequired := PriorityDisinherit(m);
      if events.waiting[m] != [] {
        xYieldRequired := RemoveFromEventList(m);
      }
    }

    /** The part of `xQueueGenericReceive` that waits for a mutex somebody holds: the holder inherits first. */
    method BlockOnMutex(m: MutexId, xTicksToWait: nat)
      requires Valid() && MayBlock(Abs(), xTicksToWait) && m in own.mutexes && own.mutexes[m].messages == 0 && m in events.waiting
      modifies this
      ensures Valid() && Abs() == KernelMutex.BlockOnMutex(old(Abs()), m, xTicksToWait)
    {
      hide Inv, Linked, Current, Overflow, Inherit, KernelOps.PlaceOnEventList;
      HeldMutex(Abs(), m);
      InheritKeeps(Abs(), own.mutexes[m].holder.id);
      InheritFrame(Abs(), own.mutexes[m].holder.id);
      PriorityInherit(own.mutexes[m].holder.id);
      PlaceOnEventList(m, xTicksToWait);
    }
  }

  /** A tick with the scheduler running: the new state, and whether to switch. */
  ghost predicate Ticked(s: K, r: K, xSwitchRequired: bool) {
    Core(s, s.clock.now + 1) && r == TickNow(s) && xSwitchRequired == TickSwitches(s)
  }

  ghost predicate DrainTurn(a: K, r: K) {
    && Core(a, a.clock.now + 1) && Core(r, a.clock.now + 1) && r.clock == a.clock && |r.ev.pending| < |a.ev.pending|
    && DrainPending(a) == DrainPending(r)
  }

  ghost predicate IsReplayed(s: K, r: K) {
    && Core(s, s.clock.now + 1) && Core(r, r.clock.now + 1) && r == ReplayTick(s)
    && r.clock == s.clock.(now := s.clock.now + 1)
  }

  ghost predicate IsReleased(s: K, r: K) {
    Core(s, s.clock.now) && r == ReleaseDue(s)
  }

  ghost predicate IsTick(s: K, r: K) {
    Inv(s) && Inv(r) && r == Tick(s)
  }

  ghost predicate IsDrained(s: K, r: K) {
    Core(s, s.clock.now + 1) && r == DrainPending(s)
  }

  /** A task that has left the delayed list, not being in `delayed` any more, has at least the running task's priority. */
  ghost predicate SomeWoken(s: K, delayed: seq<TaskId>) {
    exists t :: t in s.lists.delayed && t !in delayed && t in s.prio && s.cpu.current in s.prio && s.prio[t] >= s.prio[s.cpu.current]
  }

  lemma DelayedParts(a: K, cur: seq<TaskId>, ovf: seq<TaskId>)
    requires Core(a, a.clock.now) && a.lists.delayed == cur + ovf
    ensures forall t :: t in a.lists.delayed ==> t in a.wake
    ensures (forall t :: t in cur ==> t in a.wake) && Sorted(cur, a.wake)
    ensures (forall t :: t in ovf ==> t in a.wake) && Sorted(ovf, a.wake)
    ensures !HasDue(a) ==> ReleaseDue(a) == a
  {
    CoreParts(a, a.clock.now);
    SortedParts(cur, ovf, a.wake);
  }

  /** Before the count goes up, nothing is due; so nothing is left from an epoch that is about to end. */
  lemma NextDue(a: K, cur: seq<TaskId>, ovf: seq<TaskId>)
    requires Core(a, a.clock.now + 1) && a.lists.delayed == cur + ovf
    ensures a.cfg.M > 1 && forall t :: t in cur + ovf ==> t in a.wake && a.wake[t] >= a.clock.now + 1
    ensures (forall t :: t in ovf ==> t in a.wake) && Sorted(ovf, a.wake)
  {
    CoreParts(a, a.clock.now + 1);
    SortedParts(cur, ovf, a.wake);
  }

  /** What `TickSwitches` says, in terms of the tasks that left the delayed list. */
  lemma SwitchesWhen(s: K, u: K, r: K)
    requires Core(s, s.clock.now + 1) && u == s.(clock := s.clock.(now := s.clock.now + 1)) && r == TickNow(s)
    ensures s.cpu.current in s.prio && s.prio[s.cpu.current] < |r.lists.ready|
    ensures TickSwitches(s) <==>
      SomeWoken(u, r.lists.delayed) || |r.lists.ready[s.prio[s.cpu.current]].items| > 1 || s.cpu.yieldPending
  {
    hide Core, TickNow, SomeWoken, WakesRival;
    TickNowExact(s);
    TickParts(s, r);
    DueLeave(s, r);
    RivalsWoken(s, u, r.lists.delayed);
  }

  lemma TickParts(s: K, r: K)
    requires Core(s, s.clock.now + 1) && r == TickNow(s)
    ensures s.cpu.current in s.prio && s.prio[s.cpu.current] < |r.lists.ready|
  {
    hide Core, TickNow, ListsOk, EventsOk, Owned, Configured, Placed, Consistent;
    TickNowExact(s);
    CoreParts(r, r.clock.now + 1);
  }

  lemma DueLeave(s: K, r: K)
    requires Core(s, s.clock.now + 1) && r == TickNow(s)
    ensures forall t :: t in s.lists.delayed ==> t in s.wake && (t !in r.lists.delayed <==> s.wake[t] <= s.clock.now + 1)
  {
    hide Core, TickNow;
    forall t | t in s.lists.delayed ensures t in s.wake && (t !in r.lists.delayed <==> s.wake[t] <= s.clock.now + 1) {
      DueLeaves(s, r, t);
    }
  }

  lemma DueLeaves(s: K, r: K, t: TaskId)
    requires Core(s, s.clock.now + 1) && r == TickNow(s) && t in s.lists.delayed
    ensures t in s.wake && (t !in r.lists.delayed <==> s.wake[t] <= s.clock.now + 1)
  {
    hide Core, TickNow;
    TickNowExact(s);
    DelayedPlace(s, t);
    DelayedPlace(r, t);
  }

  lemma DelayedPlace(s: K, t: TaskId)
    requires Core(s, s.clock.now + 1)
    ensures t in s.lists.delayed ==> t in s.wake
    ensures t in s.lists.delayed <==> t in s.lists.at && s.lists.at[t] == Delayed
  {
  }

  lemma RivalsWoken(s: K, u: K, left: seq<TaskId>)
    requires Core(s, s.clock.now + 1) && u == s.(clock := s.clock.(now := s.clock.now + 1))
    requires forall t :: t in s.lists.delayed ==> t in s.wake && (t !in left <==> s.wake[t] <= s.clock.now + 1)
    ensures WakesRival(s) <==> SomeWoken(u, left)
  {
    hide Core, ListsOk, EventsOk, Owned, Configured, Placed, Consistent;
    CoreParts(s, s.clock.now + 1);
    DelayedTasks(s);
    if WakesRival(s) {
      var t :| t in s.lists.delayed && s.wake[t] <= s.clock.now + 1 && s.prio[t] >= s.prio[s.cpu.current];
      assert t in u.lists.delayed && t !in left;
    }
    if SomeWoken(u, left) {
      var t :| t in u.lists.delayed && t !in left && t in u.prio && u.cpu.current in u.prio && u.prio[t] >= u.prio[u.cpu.current];
      assert t in s.lists.delayed;
    }
  }

  lemma DelayedTasks(s: K)
    requires Core(s, s.clock.now + 1)
    ensures forall t :: t in s.lists.delayed ==> t in s.prio
  {
  }

  /** Readying task `t` is the next step of `DrainPending`. */
  ghost predicate Drains(a: K, t: TaskId) {
    && Core(a, a.clock.now + 1)
    && Placed(a.lists) && Consistent(a.ev) && t in a.lists.at && t in a.ev.at && t in a.prio
    && a.prio[t] < |a.lists.ready| && a.cpu.current in a.prio
    && var r := MarkYield(MakeReady(a, t), a.prio[t] >= a.prio[a.cpu.current]);
       && Core(r, a.clock.now + 1) && r.clock == a.clock && |r.ev.pending| < |a.ev.pending|
       && DrainPending(a) == DrainPending(r)
  }

  lemma DrainStep(a: K, t: TaskId)
    requires Core(a, a.clock.now + 1) && a.ev.pending != [] && t == a.ev.pending[0]
    ensures Drains(a, t)
  {
    hide Core, MakeReady, ListsOk, EventsOk, Owned, Configured, Placed, Consistent;
    CoreParts(a, a.clock.now + 1);
    PendingKnown(a, t);
    DrainOneExact(a);
  }

  lemma DrainDone(a: K)
    requires Core(a, a.clock.now + 1) && a.ev.pending == []
    ensures DrainPending(a) == a
  {
  }

  lemma NothingBeforeEmpty(value: map<TaskId, nat>, next: nat)
    ensures NothingBefore([], value, next)
  {
  }

  /** One turn of the unblocking loop: stop at an empty list or a head not yet due, else ready the head. */
  lemma UnblockHead(a: K, cur: seq<TaskId>, ovf: seq<TaskId>, value: map<TaskId, nat>, epoch: nat, tick: nat)
    requires Core(a, a.clock.now) && a.lists.delayed == cur + ovf && Epochs(cur, ovf, value, a.wake, epoch, a.cfg.M)
    requires tick < a.cfg.M && a.clock.now == a.cfg.M * epoch + tick
    ensures cur == [] ==> ReleaseDue(a) == a
    ensures cur != [] ==> cur[0] in value && value[cur[0]] < a.cfg.M && NothingBefore(cur, value, value[cur[0]])
    ensures cur != [] && tick < value[cur[0]] ==> ReleaseDue(a) == a
    ensures cur != [] && value[cur[0]] <= tick ==> Unblocks(a, cur[0])
  {
    hide Core, Epochs, NothingBefore, Unblocks, ReleaseDue;
    DelayedParts(a, cur, ovf);
    HeadDue(cur, ovf, value, a.wake, epoch, a.cfg.M, tick);
    if cur != [] {
      HeadIsNext(cur, ovf, value, a.wake, epoch, a.cfg.M);
      if value[cur[0]] <= tick { UnblockStep(a, cur[0]); }
    }
  }

  /** Readying task `t` is the next step of `ReleaseDue`. */
  ghost predicate Unblocks(a: K, t: TaskId) {
    && Core(a, a.clock.now)
    && Placed(a.lists) && Consistent(a.ev) && t in a.lists.at && t in a.ev.at && t in a.prio
    && a.prio[t] < |a.lists.ready| && t in a.lists.delayed
    && Core(MakeReady(a, t), a.clock.now) && MakeReady(a, t).clock == a.clock
    && ReleaseDue(MakeReady(a, t)) == ReleaseDue(a)
    && MakeReady(a, t).lists.delayed == Without(a.lists.delayed, t) && NoDup(a.lists.delayed)
    && a.cpu.current in a.prio
  }

  lemma UnblockStep(a: K, t: TaskId)
    requires Core(a, a.clock.now) && (forall u :: u in a.lists.delayed ==> u in a.wake) && HasDue(a) && t == a.lists.delayed[0]
    ensures Unblocks(a, t)
  {
    hide Core, MakeReady, ListsOk, EventsOk, Owned, Configured, Placed, Consistent, NoDup, Without;
    CoreParts(a, a.clock.now);
    PlacedDelayed(a.lists);
    DelayedKnown(a, t, a.clock.now);
    MakeReadyKeeps(a, t, a.clock.now);
    MakeReadyOnly(a, t);
  }

  lemma PlacedDelayed(l: Lists)
    requires Placed(l)
    ensures NoDup(l.delayed) && forall t :: t in l.delayed ==> t in l.at
  {
  }

  lemma NobodyWoken(s: K)
    ensures !SomeWoken(s, s.lists.delayed)
  {
  }

  lemma WokenStep(s: K, before: seq<TaskId>, after: seq<TaskId>, t: TaskId)
    requires after == Without(before, t) && NoDup(before) && t in before && t in s.lists.delayed
    requires t in s.prio && s.cpu.current in s.prio
    ensures SomeWoken(s, after) <==> SomeWoken(s, before) || s.prio[t] >= s.prio[s.cpu.current]
  {
    if SomeWoken(s, before) {
      var u :| u in s.lists.delayed && u !in before && u in s.prio && s.prio[u] >= s.prio[s.cpu.current];
      assert u !in after;
    }
  }

  lemma AnswerConsistent(ev: Events, t: TaskId, v: nat)
    requires Consistent(ev) && t in ev.at
    ensures Consistent(SetValue(ev, t, v)) && t in SetValue(ev, t, v).at
  {
    SetValueConsistent(ev, t, v);
  }

  lemma LeaveParts(l: Lists, t: TaskId)
    requires Placed(l) && t in l.at
    ensures Placed(Leave(l, t)) && |Leave(l, t).ready| == |l.ready|
  {
    LeavePlaced(l, t);
  }

  lemma ReadyRing(l: Lists, p: nat)
    requires Placed(l) && p < |l.ready|
    ensures RingOk(l.ready[p])
  {
  }

  lemma PlacedParts(l: Lists, t: TaskId)
    requires Placed(l) && t in l.at
    ensures NoDup(l.delayed)
    ensures l.at[t].Ready? ==> l.at[t].p < |l.ready| && RingOk(l.ready[l.at[t].p])
  {
  }

  lemma SelectionParts(s: K)
    requires Inv(s)
    ensures Placed(s.lists) && s.cpu.top < |s.lists.ready| && s.lists.ready[0].items != []
  {
  }

  lemma BlockingParts(s: K, t: TaskId)
    requires Inv(s) && IsReady(s.lists, t)
    ensures Placed(s.lists) && InOrder(s.lists.delayed, s.wake) && AllIn(s.lists.delayed, s.wake)
    ensures t !in s.lists.delayed && Placed(Leave(s.lists, t)) && Leave(s.lists, t).delayed == s.lists.delayed
  {
    CoreParts(s, s.clock.now + 1);
    LeavePlaced(s.lists, t);
  }

  lemma BlockForEver(s: K, ev: Events, ticks: nat)
    requires Inv(s) && IsReady(s.lists, s.cpu.current) && ticks == s.cfg.M - 1
    ensures Placed(s.lists) && s.cpu.current in s.lists.at
    ensures var l, t := Leave(s.lists, s.cpu.current), s.cpu.current;
      Block(s, ev, ticks, true) == s.(lists := l.(suspended := l.suspended + [t], at := l.at[t := Suspended]), ev := ev)
  {
    hide Core, Leave, Placed;
    BlockingParts(s, s.cpu.current);
  }

  lemma BlockUntil(s: K, ev: Events, ticks: nat, canBlockIndefinitely: bool, delayed: seq<TaskId>, wake: map<TaskId, nat>)
    requires Inv(s) && IsReady(s.lists, s.cpu.current) && !ForEver(s.cfg, ticks, canBlockIndefinitely)
    requires wake == s.wake[s.cpu.current := s.clock.now + ticks]
    requires Inserted(s.lists.delayed, delayed, wake, s.cpu.current)
    ensures Placed(s.lists) && s.cpu.current in s.lists.at
    ensures var l, t := Leave(s.lists, s.cpu.current), s.cpu.current;
      Block(s, ev, ticks, canBlockIndefinitely)
        == s.(wake := wake, lists := l.(delayed := delayed, at := l.at[t := Delayed]), ev := ev)
  {
    hide Core, Leave, Placed, SortedInsert;
    BlockingParts(s, s.cpu.current);
  }

  lemma NotDelayed(l: Lists, t: TaskId, cur: seq<TaskId>, ovf: seq<TaskId>)
    requires l.delayed == cur + ovf && t !in l.delayed
    ensures t !in cur && t !in ovf
  {
    assert forall u :: u in cur || u in ovf ==> u in cur + ovf;
  }

  lemma ListsParts(s: K)
    requires Inv(s)
    ensures Placed(s.lists) && s.lists.at.Keys == s.prio.Keys && |s.lists.ready| == s.cfg.P
  {
  }

  lemma TaskParts(s: K, t: TaskId)
    requires Inv(s) && (t in s.prio || t in s.lists.at)
    ensures Placed(s.lists) && Consistent(s.ev) && t in s.lists.at && t in s.ev.at
    ensures t in s.prio && s.prio[t] < |s.lists.ready| && |s.lists.ready| == s.cfg.P
    ensures s.cpu.current in s.prio && s.prio[s.cpu.current] < s.cfg.P
    ensures Placed(Leave(s.lists, t)) && |Leave(s.lists, t).ready| == |s.lists.ready|
  {
    hide ListsOk, EventsOk, Owned;
    CoreParts(s, s.clock.now + 1);
    LeavePlaced(s.lists, t);
  }

  lemma CurrentSorted(s: K, cur: seq<TaskId>, ovf: seq<TaskId>)
    requires Core(s, s.clock.now + 1) && s.lists.delayed == cur + ovf
    ensures s.cfg.M > 0 && (forall t :: t in cur ==> t in s.wake) && Sorted(cur, s.wake)
  {
    hide Core, Sorted;
    SortedDelayed(s);
    SortedParts(cur, ovf, s.wake);
  }

  lemma SortedDelayed(s: K)
    requires Core(s, s.clock.now + 1)
    ensures s.cfg.M > 0 && (forall t :: t in s.lists.delayed ==> t in s.wake) && Sorted(s.lists.delayed, s.wake)
  {
  }

  /** The idle task need not look for a deleted task's event item: it is in no list. */
  lemma TerminatedTask(s: K, t: TaskId)
    requires Inv(s) && t in s.lists.termination
    ensures t in s.lists.at && s.lists.at[t] == Termination
    ensures Consistent(s.ev) && t in s.ev.at && EventItems.Remove(s.ev, t) == s.ev
  {
    hide Inv, ListsOk, Placed, Consistent, Owned, Configured;
    InvParts(s);
    TerminationPlace(s.lists, t);
  }

  lemma TerminationPlace(l: Lists, t: TaskId)
    requires Placed(l) && t in l.termination
    ensures t in l.at && l.at[t] == Termination
  {
  }

  /** `t` in the ready list of its present priority, if it is ready. */
  function Requeued(s: K, t: TaskId): K
    requires Placed(s.lists) && t in s.lists.at && t in s.prio && s.prio[t] < |s.lists.ready|
  {
    s.(lists := MoveLists(s.lists, t, s.prio[t]), cpu := if s.lists.at[t].Ready? then Recorded(s.cpu, s.prio[t]) else s.cpu)
  }

  lemma RepricedIs(s: K, o: Own, ev: Events, t: TaskId, p: nat)
    requires Inv(s) && t in s.prio && p < s.cfg.P
    ensures Placed(s.lists) && t in s.lists.at && p < |s.lists.ready|
    ensures Repriced(s, o, ev, t, p) == Requeued(s.(prio := s.prio[t := p], own := o, ev := ev), t)
  {
    hide Inv, Placed, Consistent, MoveLists;
    TaskParts(s, t);
  }

  lemma PrioritySetIs(s: K, t: TaskId, p: nat)
    requires Inv(s) && t in s.prio && p < s.cfg.P
    ensures Placed(s.lists) && t in s.lists.at && |s.lists.ready| == s.cfg.P && s.prio[t] < s.cfg.P
    ensures t in s.own.base && t in s.ev.value
    ensures KernelOwnership.PrioritySet(s, t, p) ==
      if s.own.base[t] == p then s else
        Requeued(s.(prio := s.prio[t := if s.own.base[t] == s.prio[t] then p else s.prio[t]],
                    own := Rebased(s.own, t, p), ev := SetFreeValue(s.cfg, s.ev, t, s.cfg.P - p)), t)
  {
    hide Inv, Placed, Consistent, MoveLists, SetFreeValue, Rebased, Repriced, Requeued;
    TaskParts(s, t);
    TaskKnown(s, t);
    RepricedIs(s, Rebased(s.own, t, p), SetFreeValue(s.cfg, s.ev, t, s.cfg.P - p), t,
               if s.own.base[t] == s.prio[t] then p else s.prio[t]);
  }

  /** The records of a new task, before it is in any list. */
  function Initialised(s: K, t: TaskId, p: nat): K
    requires p < s.cfg.P
  {
    s.(prio := s.prio[t := p], lists := s.lists.(at := s.lists.at[t := Unlisted]),
       ev := NewEvents(s.ev, t, s.cfg.P - p), own := NewOwn(s.own, t, p))
  }

  /** The records of a task that is in no list go. */
  function Erased(s: K, t: TaskId): K {
    s.(prio := s.prio - {t}, lists := s.lists.(at := s.lists.at - {t}), ev := ErasedEvents(s.ev, t), own := ErasedOwn(s.own, t))
  }

  function ErasedOwn(o: Own, t: TaskId): Own {
    o.(base := o.base - {t}, held := o.held - {t})
  }

  function ErasedEvents(e: Events, t: TaskId): Events {
    e.(at := e.at - {t}, value := e.value - {t})
  }

  lemma ForgetIs(s: K, t: TaskId)
    requires Inv(s) && t in s.prio && s.tasks > 0 && (t in s.lists.at && s.lists.at[t] == Termination ==> s.cleanUp > 0)
    ensures Placed(s.lists) && Consistent(s.ev) && t in s.lists.at && t in s.ev.at
    ensures Forget(s, t) ==
      Erased(s.(lists := Leave(s.lists, t), ev := EventItems.Remove(s.ev, t), tasks := s.tasks - 1,
                cleanUp := if s.lists.at[t] == Termination then s.cleanUp - 1 else s.cleanUp), t)
  {
    hide Inv, Leave, EventItems.Remove, Placed, Consistent;
    TaskParts(s, t);
  }

  lemma DeleteSelfIs(s: K)
    requires Inv(s)
    ensures var t := s.cpu.current;
      && Placed(s.lists) && Consistent(s.ev) && t in s.lists.at && t in s.ev.at
      && var l := Leave(s.lists, t);
         DeleteSelf(s) == s.(lists := l.(termination := l.termination + [t], at := l.at[t := Termination]),
           ev := EventItems.Remove(s.ev, t), cleanUp := s.cleanUp + 1)
  {
    hide Inv, Leave, EventItems.Remove, Placed, Consistent;
    InvCurrent(s);
    TaskParts(s, s.cpu.current);
  }

  lemma InvCore(s: K)
    requires Inv(s)
    ensures Core(s, s.clock.now + 1)
  {
  }

  lemma InvCurrent(s: K)
    requires Inv(s)
    ensures s.cpu.current in s.prio
  {
    hide Core;
    CoreParts(s, s.clock.now + 1);
  }
}

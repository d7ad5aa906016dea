/** A suspended task: in no list but the suspended one, and it does not run until it is resumed. */
module KernelSuspended {
  import opened Sequences
  import opened StateLists
  import opened EventItems
  import opened Ownership
  import opened KernelSpec
  import opened KernelOps
  import opened KernelOwnership
  import opened KernelMutex
  import opened KernelRuns
  import opened KernelTicks
  import opened KernelTime
  import opened KernelPriority
  import opened KernelWaiting
  import opened KernelWaking

  // ------------------------------------------------------------------ suspending and resuming

  /** `vTaskSuspend` takes the task out of every list it was in, that of an event it waited for included. */
  lemma SuspendParks(s: K, t: TaskId)
    requires Inv(s) && Live(s, t) && t != s.cpu.idle
    ensures IsSuspended(Suspend(s, t), t)
    ensures t !in Suspend(s, t).ev.pending && forall l :: l in Suspend(s, t).ev.waiting ==> t !in Suspend(s, t).ev.waiting[l]
  {
    hide Inv, SuspendLists, ListsOk, EventsOk, Owned, Placed, Consistent, Configured;
    InvParts(s);
    SuspendListsOk(s.lists, s.prio, s.wake, s.cpu, s.clock.now + 1, s.clock.now + s.cfg.M, t);
    RemoveConsistent(s.ev, t);
    InNoList(Suspend(s, t).ev, t);
  }

  lemma InNoList(e: Events, t: TaskId)
    requires Consistent(e) && t in e.at && e.at[t] == Nowhere
    ensures t !in e.pending && forall l :: l in e.waiting ==> t !in e.waiting[l]
  {
    forall l | l in e.waiting ensures t !in e.waiting[l] {
      assert Holds(e.waiting[l], e.at, On(l));
    }
  }

  /** `vTaskResume` readies it at once. */
  lemma ResumeAwakes(s: K, t: TaskId)
    requires Inv(s) && IsSuspended(s, t) && t != s.cpu.current
    ensures Awake(Resume(s, t), t)
  {
    hide Inv, MakeReady, Awake;
    SuspendedKnown(s, t);
    MakeReadyAwakes(s, t);
  }

  /** `xTaskResumeFromISR` readies it, or notes it to be readied when the scheduler is resumed. */
  lemma ResumeFromISRRouses(s: K, t: TaskId)
    requires Inv(s) && IsSuspended(s, t)
    ensures Roused(ResumeFromISR(s, t), t)
  {
    hide Core, Wake, Roused;
    WakeRouses(s, t);
  }

  // ------------------------------------------------------------------ deleting

  /** No trace of the task: no priority, no list, no event item and no ownership record. */
  ghost predicate Gone(s: K, t: TaskId) {
    && t !in s.prio && t !in s.lists.at && t !in s.ev.at && t !in s.ev.value && t !in s.own.base && t !in s.own.held
    && forall l :: l in s.ev.waiting ==> t !in s.ev.waiting[l]
  }

  lemma ForgetRemoves(s: K, t: TaskId)
    requires Inv(s) && MayForget(s, t)
    ensures s.tasks > 0 && (s.lists.at[t] == Termination ==> s.cleanUp > 0)
    ensures Gone(Forget(s, t), t) && Forget(s, t).prio == s.prio - {t}
  {
    hide Inv, ForgetLists, ListsOk, EventsOk, Owned, Placed, Consistent, Configured, EventItems.Remove;
    InvParts(s);
    ForgetKeeps(s, t);
    ForgetListsOk(s.lists, s.prio, s.wake, s.cpu, s.clock.now + 1, s.clock.now + s.cfg.M, t);
    RemoveConsistent(s.ev, t);
    InNoList(EventItems.Remove(s.ev, t), t);
  }

  /** `vTaskDelete`: another task is gone; the running one waits in the termination list for the idle task to free it. */
  lemma DeleteRemoves(s: K, t: TaskId)
    requires Inv(s) && MayDelete(s, t)
    ensures t != s.cpu.current ==> Gone(Delete(s, t), t)
    ensures t == s.cpu.current ==>
      var r := Delete(s, t);
      && t in r.lists.at && r.lists.at[t] == Termination && t in r.ev.at && r.ev.at[t] == Nowhere
      && t in r.lists.termination && r.cleanUp == s.cleanUp + 1
  {
    hide Inv, TerminateLists, Forget, ListsOk, EventsOk, Owned, Placed, Consistent, Configured;
    InvParts(s);
    if t == s.cpu.current {
      TerminateListsOk(s.lists, s.prio, s.wake, s.cpu, s.clock.now + 1, s.clock.now + s.cfg.M, t);
      RemoveConsistent(s.ev, t);
      DeleteSelfKeeps(s);
      InvParts(DeleteSelf(s));
      TerminationMember(DeleteSelf(s).lists, t);
    } else {
      DeletableOther(s, t);
      ForgetRemoves(s, t);
    }
  }

  lemma CleanUpRemoves(s: K)
    requires Inv(s) && MayCleanUp(s)
    ensures Gone(CleanUp(s), s.lists.termination[0])
  {
    hide Core, Forget;
    CleanUpFirst(s);
    ForgetRemoves(s, s.lists.termination[0]);
  }

  // ------------------------------------------------------------------ no other step readies it

  /** The call resumes task `t`, or deletes it. */
  predicate Releases(op: Op, t: TaskId) {
    match op
    case OnTask(DeleteTask(u)) => u == t
    case OnTask(ResumeTask(u)) => u == t
    case OnTask(ResumeTaskFromISR(u)) => u == t
    case _ => false
  }

  /** In the suspended list: because it was suspended, or because it waits on list `place` for ever. */
  ghost predicate Parked(s: K, t: TaskId, place: Place) {
    t in s.lists.at && s.lists.at[t] == Suspended && t in s.ev.at && s.ev.at[t] == place && place != Pending
  }

  lemma SuspendedIsParked(s: K, t: TaskId)
    ensures IsSuspended(s, t) <==> Parked(s, t, Nowhere)
  {
  }

  lemma SuspendedUntouched(s: K, op: Op, t: TaskId)
    requires Inv(s) && Parked(s, t, Nowhere)
    ensures op.OnWait? && Touches(s, op, t) ==> op.w.WakeWaiter? && op.w.t == t
    ensures op.OnMutex? ==> !Touches(s, op, t)
  {
    hide Core;
    InvConsistent(s);
    InNoList(s.ev, t);
  }

  lemma TaskStepParked(s: K, op: TaskOp, r: K, t: TaskId, place: Place)
    requires Inv(s) && TaskStep(s, op, r) && Parked(s, t, place)
    requires if place == Nowhere then !Releases(OnTask(op), t) else !Touches(s, OnTask(op), t)
    ensures Parked(r, t, place)
  {
    hide Inv, KernelOps.Create, Delete, CleanUp, Suspend, MakeReady, Wake, PrioritySet;
    match op
    case CreateTask(u, p) => CreateUndisturbed(s, u, p, t);
    case DeleteTask(u) => DeleteUndisturbed(s, u, t);
    case IdleCleanUp => CleanUpUndisturbed(s, t);
    case SuspendTask(u) => if u == t { SuspendParks(s, t); } else { SuspendUndisturbed(s, u, t); }
    case ResumeTask(u) => if IsSuspended(s, u) { MakeReadyUndisturbed(s, u, t); }
    case ResumeTaskFromISR(u) => if IsSuspended(s, u) { WakeUndisturbed(s, u, t); }
    case SetTaskPriority(u, p) => PrioritySetUndisturbed(s, u, p, t);
  }

  /** In the suspended list, a task is neither delayed nor pending, in any state on the way of a step. */
  lemma ParkedNotListed(s: K, t: TaskId, place: Place, lo: nat)
    requires Core(s, lo) && Parked(s, t, place)
    ensures t !in s.lists.delayed && t !in s.ev.pending && forall u :: u in s.lists.delayed ==> u in s.wake
  {
  }

  lemma TickSparesParked(s: K, t: TaskId, place: Place)
    requires Core(s, s.clock.now + 1) && Parked(s, t, place)
    ensures Parked(TickNow(s), t, place)
  {
    hide Core, TickNow;
    ParkedNotListed(s, t, place, s.clock.now + 1);
    TickNowExact(s);
  }

  lemma {:induction false} ReplaySparesParked(s: K, k: nat, t: TaskId, place: Place)
    requires Core(s, s.clock.now + 1) && s.ev.pending == [] && Parked(s, t, place)
    ensures Parked(Replay(s, k), t, place)
    decreases k
  {
    hide Core, TickNow, TickSwitches;
    if k > 0 {
      ReplayTickReplayed(s);
      TickSparesParked(s, t, place);
      ReplaySparesParked(ReplayTick(s), k - 1, t, place);
    }
  }

  lemma {:induction false} DrainSparesParked(s: K, t: TaskId, place: Place)
    requires Core(s, s.clock.now + 1) && Parked(s, t, place)
    ensures Parked(DrainPending(s), t, place)
    decreases |s.ev.pending|
  {
    hide Core, DrainOne;
    if s.ev.pending != [] {
      DrainOneExact(s);
      DrainOneOnly(s);
      DrainSparesParked(DrainOne(s), t, place);
    }
  }

  lemma ClockStepParked(s: K, op: ClockOp, r: K, t: TaskId, place: Place)
    requires Inv(s) && ClockStep(s, op, r) && Parked(s, t, place)
    ensures Parked(r, t, place)
  {
    hide Core, TickNow, ResumeAll;
    match op
    case TickInterrupt => if s.clock.depth == 0 { TickSparesParked(s, t, place); }
    case SuspendAll =>
    case EnableAll => ResumeAllSparesParked(s, t, place);
    case Switch =>
  }

  lemma ResumeAllSparesParked(s: K, t: TaskId, place: Place)
    requires Inv(s) && s.clock.depth > 0 && Parked(s, t, place)
    ensures Parked(ResumeAll(s), t, place)
  {
    hide Core, DrainPending, Replay;
    DrainKeepsCore(s);
    var d := s.(clock := s.clock.(depth := s.clock.depth - 1));
    if d.clock.depth == 0 {
      DrainPendingKeeps(d);
      DrainSparesParked(d, t, place);
      ReplaySparesParked(DrainPending(d), s.clock.pended, t, place);
    }
  }

  lemma StepParked(s: K, op: Op, r: K, t: TaskId, place: Place)
    requires Inv(s) && Next(s, op, r) && Parked(s, t, place)
    requires if place == Nowhere then !Releases(op, t) else !Touches(s, op, t)
    ensures Parked(r, t, place)
  {
    hide Core, ClockStep, TaskStep, MutexStep, WakeUnordered, WakeHead, PlaceOnEventList, PlaceOnUnordered, Delay, ResetItemValue;
    if place == Nowhere { SuspendedUntouched(s, op, t); }
    match op
    case OnClock(c) => ClockStepParked(s, c, r, t, place);
    case OnTask(k) => TaskStepParked(s, k, r, t, place);
    case OnWait(w) => WaitStepUndisturbed(s, w, r, t);
    case OnMutex(x) => MutexStepUndisturbed(s, x, r, t);
  }

  // ------------------------------------------------------------------ waiting for ever

  /** The operation blocks the running task on list `l` with a block time of portMAX_DELAY. */
  predicate WaitsForEver(c: Config, op: Op, l: ListId) {
    match op
    case OnWait(WaitOn(k, d)) => k == l && d + 1 == c.M
    case OnWait(WaitForBits(k, _, d)) => k == l && d + 1 == c.M
    case OnMutex(BlockOn(m, d)) => m == l && d + 1 == c.M
    case _ => false
  }

  lemma BlockParks(s: K, ev: Events, ticks: nat, l: ListId)
    requires Inv(s) && IsReady(s.lists, s.cpu.current) && ForEver(s.cfg, ticks, true)
    requires s.cpu.current in ev.at && ev.at[s.cpu.current] == On(l)
    ensures Parked(Block(s, ev, ticks, true), s.cpu.current, On(l))
  {
    hide Inv, ListsOk, EventsOk, Owned, Placed, Consistent, Configured, BlockLists, RingRemove;
    InvParts(s);
    BlockListsPlaced(s.lists, s.cpu.current, s.wake, true);
  }

  lemma PlaceParks(s: K, l: ListId, ticks: nat)
    requires Inv(s) && IsReady(s.lists, s.cpu.current) && ForEver(s.cfg, ticks, true) && l in s.ev.waiting
    ensures Parked(PlaceOnEventList(s, l, ticks), s.cpu.current, On(l))
  {
    hide Inv, Block, Consistent, SortedInsert;
    InvConsistent(s);
    CurrentParts(s);
    BlockParks(s, InsertSorted(s.ev, l, s.cpu.current), ticks, l);
  }

  lemma PlaceUnorderedParks(s: K, l: ListId, value: nat, ticks: nat)
    requires Inv(s) && IsReady(s.lists, s.cpu.current) && ForEver(s.cfg, ticks, true) && l in s.ev.waiting
    ensures Parked(PlaceOnUnordered(s, l, value, ticks), s.cpu.current, On(l))
  {
    hide Inv, Block, Consistent;
    InvConsistent(s);
    CurrentParts(s);
    BlockParks(s, Append(s.ev, l, s.cpu.current, value + s.cfg.inUse), ticks, l);
  }

  lemma BlockOnParks(s: K, m: MutexId, ticks: nat)
    requires Inv(s) && IsReady(s.lists, s.cpu.current) && ForEver(s.cfg, ticks, true)
    requires m in s.own.mutexes && s.own.mutexes[m].messages == 0 && m in s.ev.waiting
    ensures Parked(BlockOnMutex(s, m, ticks), s.cpu.current, On(m))
  {
    hide Inv, Inherit, PlaceOnEventList, Parked;
    HeldMutex(s, m);
    var h := s.own.mutexes[m].holder.id;
    InheritKeeps(s, h);
    InheritFrame(s, h);
    PlaceParks(Inherit(s, h), m, ticks);
  }

  lemma WaitingForEverParks(s: K, op: Op, r: K, l: ListId)
    requires Inv(s) && Next(s, op, r) && WaitsForEver(s.cfg, op, l)
    ensures Parked(r, s.cpu.current, On(l))
  {
    hide Inv, ClockStep, TaskStep, Parked, Delay, PlaceOnEventList, PlaceOnUnordered, BlockOnMutex;
    match op
    case OnWait(WaitOn(k, d)) => PlaceParks(s, k, d);
    case OnWait(WaitForBits(k, v, d)) => PlaceUnorderedParks(s, k, v, d);
    case OnMutex(BlockOn(m, d)) => BlockOnParks(s, m, d);
    case _ =>
  }

  /**
   A task that blocks with portMAX_DELAY waits on that list in every state of the run, however many ticks pass, until
   a call wakes, suspends or deletes it; a resume does nothing to it.
   */
  lemma {:induction false} BlockedForEver(states: seq<K>, ops: seq<Op>, l: ListId, n: nat)
    requires IsRun(states, ops) && Inv(states[0]) && 0 < n < |states| && WaitsForEver(states[0].cfg, ops[0], l)
    requires forall i :: 1 <= i < n ==> !Touches(states[i], ops[i], states[0].cpu.current)
    ensures Parked(states[n], states[0].cpu.current, On(l))
  {
    hide Inv, Next, Parked, Touches, WaitsForEver;
    RunKeeps(states, ops, n - 1);
    assert Step(states[n - 1], ops[n - 1], states[n]);
    if n == 1 {
      WaitingForEverParks(states[0], ops[0], states[1], l);
    } else {
      BlockedForEver(states, ops, l, n - 1);
      StepParked(states[n - 1], ops[n - 1], states[n], states[0].cpu.current, On(l));
    }
  }

  // ------------------------------------------------------------------ only a switch changes the running task

  predicate Switches(s: K, op: Op) {
    op == OnClock(Switch) && s.clock.depth == 0
  }

  lemma ClockStepRuns(s: K, op: ClockOp, r: K)
    requires Inv(s) && ClockStep(s, op, r) && !Switches(s, OnClock(op))
    ensures r.cpu.current == s.cpu.current
  {
    hide Core, TickNow, DrainPending, Replay;
    match op
    case TickInterrupt => if s.clock.depth == 0 { TickNowExact(s); }
    case EnableAll =>
      DrainKeepsCore(s);
      var d := s.(clock := s.clock.(depth := s.clock.depth - 1));
      if d.clock.depth == 0 {
        DrainPendingKeeps(d);
        ReplayKeeps(DrainPending(d), s.clock.pended);
      }
    case _ =>
  }

  lemma TaskStepRuns(s: K, op: TaskOp, r: K)
    requires Inv(s) && TaskStep(s, op, r)
    ensures r.cpu.current == s.cpu.current
  {
    hide Core, CreateLists, SuspendLists, ToReady, TerminateLists, ForgetLists, ForgetEvents, MoveLists, SetFreeValue;
  }

  lemma WaitStepRuns(s: K, op: WaitOp, r: K)
    requires Inv(s) && WaitStep(s, op, r)
    ensures r.cpu.current == s.cpu.current
  {
    hide Core, ToReady, BlockLists, SortedInsert;
  }

  lemma MutexStepRuns(s: K, op: MutexOp, r: K)
    requires Inv(s) && MutexStep(s, op, r)
    ensures r.cpu.current == s.cpu.current
  {
    hide Core, BlockOnMutex, GiveMutex, Take;
    match op
    case BlockOn(m, ticks) => BlockOnRuns(s, m, ticks);
    case Give(m) => if s.own.mutexes[m].messages != 1 { GiveRuns(s, m); }
    case GiveAgain(m) => if s.own.mutexes[m].holder == Task(s.cpu.current) && s.own.mutexes[m].count <= 1 { GiveRuns(s, m); }
    case _ =>
  }

  lemma BlockOnRuns(s: K, m: MutexId, ticks: nat)
    requires Inv(s) && IsReady(s.lists, s.cpu.current) && m in s.own.mutexes && s.own.mutexes[m].messages == 0 && m in s.ev.waiting
    ensures BlockOnMutex(s, m, ticks).cpu.current == s.cpu.current
  {
    hide Core, Inherit, BlockLists, InsertSorted;
    HeldMutex(s, m);
    InheritKeeps(s, s.own.mutexes[m].holder.id);
    InheritFrame(s, s.own.mutexes[m].holder.id);
  }

  lemma GiveRuns(s: K, m: MutexId)
    requires Inv(s) && m in s.own.mutexes && s.own.mutexes[m].holder == Task(s.cpu.current) && m in s.ev.waiting
    ensures GiveMutex(s, m).cpu.current == s.cpu.current
  {
    hide Core, GiveBack, ToReady;
    GiveBackKeeps(s, m);
    GiveBackFrame(s, m);
  }

  lemma StepRuns(s: K, op: Op, r: K)
    requires Inv(s) && Next(s, op, r) && !Switches(s, op)
    ensures r.cpu.current == s.cpu.current
  {
    hide Core, ClockStep, TaskStep, WaitStep, MutexStep;
    match op
    case OnClock(c) => ClockStepRuns(s, c, r);
    case OnTask(k) => TaskStepRuns(s, k, r);
    case OnWait(w) => WaitStepRuns(s, w, r);
    case OnMutex(x) => MutexStepRuns(s, x, r);
  }

  /** A switch never chooses a suspended task. */
  lemma SwitchPassesOver(s: K, r: K, t: TaskId)
    requires Inv(s) && Next(s, OnClock(Switch), r) && s.clock.depth == 0 && IsSuspended(s, t)
    ensures r.cpu.current != t
  {
    hide Core, HighestFrom, RingNext, RingCurrent;
    CoreParts(s, s.clock.now + 1);
    SwitchFacts(s, s.cpu.idle);
  }

  /**
   Over every run: a suspended task that no call resumes or deletes stays suspended and waits for nothing, whatever
   happens to the lists it was in; and it does not run, unless it suspended itself and no switch has come yet.
   */
  lemma {:induction false} SuspendedStays(states: seq<K>, ops: seq<Op>, t: TaskId, n: nat)
    requires IsRun(states, ops) && Inv(states[0]) && IsSuspended(states[0], t) && n < |states|
    requires forall i :: 0 <= i < n ==> !Releases(ops[i], t)
    ensures IsSuspended(states[n], t)
    ensures states[n].cpu.current == t ==> states[0].cpu.current == t && forall i :: 0 <= i < n ==> !Switches(states[i], ops[i])
  {
    hide Inv, Next, IsSuspended, Parked, Switches;
    if n > 0 {
      SuspendedStays(states, ops, t, n - 1);
      RunKeeps(states, ops, n - 1);
      assert Step(states[n - 1], ops[n - 1], states[n]);
      SuspendedIsParked(states[n - 1], t);
      SuspendedIsParked(states[n], t);
      StepParked(states[n - 1], ops[n - 1], states[n], t, Nowhere);
      if Switches(states[n - 1], ops[n - 1]) {
        SwitchedOver(states[n - 1], ops[n - 1], states[n], t);
      } else {
        StepRuns(states[n - 1], ops[n - 1], states[n]);
      }
    }
  }

  lemma SwitchedOver(s: K, op: Op, r: K, t: TaskId)
    requires Inv(s) && Next(s, op, r) && Switches(s, op) && IsSuspended(s, t)
    ensures r.cpu.current != t
  {
    hide Inv, Next, IsSuspended;
    SwitchPassesOver(s, r, t);
  }
}

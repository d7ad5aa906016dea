/** Theorems about time: no tick is lost, and every sleeper wakes exactly when it is due. */
module KernelTime {
  import opened Sequences
  import opened StateLists
  import opened EventItems
  import opened Ownership
  import opened KernelSpec
  import opened KernelOps
  import opened KernelOwnership
  import opened KernelMutex
  import opened KernelRuns

  // ------------------------------------------------------------------ sleepers

  /** Task `t` is delayed until absolute tick `w`, and nothing has woken it yet. */
  ghost predicate Sleeping(s: K, t: TaskId, w: nat) {
    && t in s.lists.at && s.lists.at[t] == Delayed
    && t in s.wake && s.wake[t] == w
    && t in s.ev.at && s.ev.at[t] != Pending
  }

  predicate HeadOf(ev: Events, l: ListId, t: TaskId) {
    l in ev.waiting && ev.waiting[l] != [] && ev.waiting[l][0] == t
  }

  /** The operation wakes, suspends or deletes `t`. */
  predicate Touches(s: K, op: Op, t: TaskId) {
    match op
    case OnTask(DeleteTask(u)) => u == t
    case OnTask(SuspendTask(u)) => u == t
    case OnWait(WakeFrom(l)) => HeadOf(s.ev, l, t)
    case OnWait(WakeWaiter(u, _)) => u == t
    case OnMutex(Give(m)) => HeadOf(s.ev, m, t)
    case OnMutex(GiveAgain(m)) => HeadOf(s.ev, m, t)
    case _ => false
  }

  /** Nothing changes for a blocked task `t`. */
  ghost predicate Undisturbed(s: K, r: K, t: TaskId) {
    && r.clock == s.clock
    && t in s.lists.at && t in r.lists.at && r.lists.at[t] == s.lists.at[t]
    && (t in s.wake ==> t in r.wake && r.wake[t] == s.wake[t])
    && t in s.ev.at && t in r.ev.at && r.ev.at[t] == s.ev.at[t]
  }

  lemma UndisturbedTrans(s: K, m: K, r: K, t: TaskId)
    requires Undisturbed(s, m, t) && Undisturbed(m, r, t)
    ensures Undisturbed(s, r, t)
  {
  }

  lemma BlockedKnown(s: K, t: TaskId)
    requires Inv(s) && Blocked(s.lists, t)
    ensures t in s.prio && t in s.ev.at && t != s.cpu.idle && Placed(s.lists) && Consistent(s.ev)
    ensures s.prio[t] < |s.lists.ready|
  {
    CoreParts(s, s.clock.now + 1);
  }

  lemma MakeReadyUndisturbed(s: K, x: TaskId, t: TaskId)
    requires Inv(s) && Blocked(s.lists, x) && Blocked(s.lists, t) && x != t
    ensures Undisturbed(s, MakeReady(s, x), t)
  {
    hide Core;
    BlockedKnown(s, x);
    BlockedKnown(s, t);
    ToReadyPlaced(s.lists, x, s.prio[x]);
    RemoveConsistent(s.ev, x);
  }

  lemma WakeUndisturbed(s: K, x: TaskId, t: TaskId)
    requires Inv(s) && Blocked(s.lists, x) && Blocked(s.lists, t) && x != t
    ensures Undisturbed(s, Wake(s, x), t)
  {
    hide Core, MakeReady;
    BlockedKnown(s, x);
    BlockedKnown(s, t);
    MakeReadyUndisturbed(s, x, t);
    DeferConsistent(s.ev, x);
  }

  lemma WakeHeadUndisturbed(s: K, l: ListId, t: TaskId)
    requires Inv(s) && Blocked(s.lists, t) && l in s.ev.waiting && s.ev.waiting[l] != [] && s.ev.waiting[l][0] != t
    ensures Undisturbed(s, WakeHead(s, l), t)
  {
    hide Core, Wake;
    WaiterKnown(s, l, s.ev.waiting[l][0], s.clock.now + 1);
    WakeUndisturbed(s, s.ev.waiting[l][0], t);
  }

  lemma RepricedUndisturbed(s: K, o: Own, ev: Events, x: TaskId, p: nat, t: TaskId)
    requires Inv(s) && x in s.prio && p < s.cfg.P && Blocked(s.lists, t) && ev.at == s.ev.at
    ensures Undisturbed(s, Repriced(s, o, ev, x, p), t)
  {
    hide Inv, MoveLists, ListsOk, EventsOk, Owned, Placed, Consistent, Configured;
    InvParts(s);
    BlockedKnown(s, t);
    MoveListsPlaced(s.lists, x, p);
  }

  lemma BlockUndisturbed(s: K, ev: Events, ticks: nat, forEver: bool, t: TaskId)
    requires Inv(s) && IsReady(s.lists, s.cpu.current) && Blocked(s.lists, t)
    requires t in ev.at && t in s.ev.at && ev.at[t] == s.ev.at[t]
    ensures Undisturbed(s, Block(s, ev, ticks, forEver), t)
  {
    hide Inv, BlockLists, SortedInsert, RingRemove, ListsOk, EventsOk, Owned, Placed, Consistent, Configured;
    InvParts(s);
    BlockedKnown(s, t);
    var c, e := s.cpu.current, ForEver(s.cfg, ticks, forEver);
    var w := if e then s.wake else s.wake[c := s.clock.now + ticks];
    assert t != c && forall u :: u in s.lists.delayed ==> u in w;
    BlockListsPlaced(s.lists, c, w, e);
  }

  lemma TaskStepUndisturbed(s: K, op: TaskOp, r: K, t: TaskId)
    requires Inv(s) && TaskStep(s, op, r) && Blocked(s.lists, t) && !Touches(s, OnTask(op), t)
    requires s.lists.at[t] == Delayed
    ensures Undisturbed(s, r, t)
  {
    hide Inv, KernelOps.Create, Delete, CleanUp, Suspend, Resume, ResumeFromISR, PrioritySet, Undisturbed;
    match op
    case CreateTask(u, p) => CreateUndisturbed(s, u, p, t);
    case DeleteTask(u) => DeleteUndisturbed(s, u, t);
    case IdleCleanUp => CleanUpUndisturbed(s, t);
    case SuspendTask(u) => SuspendUndisturbed(s, u, t);
    case ResumeTask(u) => ResumeUndisturbed(s, u, t);
    case ResumeTaskFromISR(u) => ResumeUndisturbed(s, u, t);
    case SetTaskPriority(u, p) => PrioritySetUndisturbed(s, u, p, t);
  }

  lemma CreateUndisturbed(s: K, x: TaskId, p: nat, t: TaskId)
    requires Inv(s) && x !in s.prio && p < s.cfg.P && Blocked(s.lists, t)
    ensures Undisturbed(s, KernelOps.Create(s, x, p), t)
  {
    hide Inv, CreateLists, ListsOk, EventsOk, Owned, Placed, Consistent, Configured;
    InvParts(s);
    BlockedKnown(s, t);
    CreateListsPlaced(s.lists, x, p);
  }

  lemma CleanUpUndisturbed(s: K, t: TaskId)
    requires Inv(s) && MayCleanUp(s) && Blocked(s.lists, t)
    ensures Undisturbed(s, CleanUp(s), t)
  {
    hide Inv, Forget, ListsOk, EventsOk, Owned, Placed, Consistent, Configured, Undisturbed;
    InvParts(s);
    var x := s.lists.termination[0];
    CleanUpFirst(s);
    TerminationMember(s.lists, x);
    ForgetUndisturbed(s, x, t);
  }

  /** A task that waits for time, not for a resume, is left alone by every resume. */
  lemma ResumeUndisturbed(s: K, x: TaskId, t: TaskId)
    requires Inv(s) && Blocked(s.lists, t) && s.lists.at[t] == Delayed
    ensures Undisturbed(s, Resume(s, x), t) && Undisturbed(s, ResumeFromISR(s, x), t)
  {
    hide Inv, MakeReady, Wake, Placed, Consistent;
    BlockedKnown(s, t);
    if IsSuspended(s, x) {
      MakeReadyUndisturbed(s, x, t);
      WakeUndisturbed(s, x, t);
    }
  }

  lemma SuspendUndisturbed(s: K, x: TaskId, t: TaskId)
    requires Inv(s) && Live(s, x) && x != s.cpu.idle && x != t && Blocked(s.lists, t)
    ensures Undisturbed(s, Suspend(s, x), t)
  {
    hide Inv, SuspendLists, ListsOk, EventsOk, Owned, Placed, Consistent, Configured;
    InvParts(s);
    BlockedKnown(s, t);
    SuspendListsOk(s.lists, s.prio, s.wake, s.cpu, s.clock.now + 1, s.clock.now + s.cfg.M, x);
    RemoveConsistent(s.ev, x);
  }

  lemma ForgetUndisturbed(s: K, x: TaskId, t: TaskId)
    requires Inv(s) && MayForget(s, x) && x != t && Blocked(s.lists, t)
    ensures s.tasks > 0 && (s.lists.at[x] == Termination ==> s.cleanUp > 0)
    ensures Undisturbed(s, Forget(s, x), t)
  {
    hide Inv, ForgetLists, ListsOk, EventsOk, Owned, Placed, Consistent, Configured;
    InvParts(s);
    BlockedKnown(s, t);
    ForgetKeeps(s, x);
    ForgetListsOk(s.lists, s.prio, s.wake, s.cpu, s.clock.now + 1, s.clock.now + s.cfg.M, x);
    RemoveConsistent(s.ev, x);
  }

  lemma DeleteUndisturbed(s: K, x: TaskId, t: TaskId)
    requires Inv(s) && MayDelete(s, x) && x != t && Blocked(s.lists, t)
    ensures Undisturbed(s, Delete(s, x), t)
  {
    hide Inv, TerminateLists, Forget, ListsOk, EventsOk, Owned, Placed, Consistent, Configured;
    InvParts(s);
    BlockedKnown(s, t);
    if x == s.cpu.current {
      TerminateListsOk(s.lists, s.prio, s.wake, s.cpu, s.clock.now + 1, s.clock.now + s.cfg.M, x);
      RemoveConsistent(s.ev, x);
    } else {
      DeletableOther(s, x);
      ForgetUndisturbed(s, x, t);
    }
  }

  lemma PrioritySetUndisturbed(s: K, x: TaskId, p: nat, t: TaskId)
    requires Inv(s) && x in s.prio && p < s.cfg.P && Blocked(s.lists, t)
    ensures Undisturbed(s, PrioritySet(s, x, p), t)
  {
    hide Core, ListsOk, Repriced, EventsOk, Owned;
    BlockedKnown(s, t);
    TaskKnown(s, x);
    if s.own.base[x] != p {
      RepricedUndisturbed(s, Rebased(s.own, x, p), SetFreeValue(s.cfg, s.ev, x, s.cfg.P - p), x,
                          if s.own.base[x] == s.prio[x] then p else s.prio[x], t);
    }
  }

  lemma WaitStepUndisturbed(s: K, op: WaitOp, r: K, t: TaskId)
    requires Inv(s) && WaitStep(s, op, r) && Blocked(s.lists, t) && !Touches(s, OnWait(op), t)
    ensures Undisturbed(s, r, t)
  {
    hide Inv, ListsOk, EventsOk, Owned, Placed, Consistent, Configured, MakeReady, Wake, WakeHead,
        WakeUnordered, Block, Append, InsertSorted;
    InvParts(s);
    BlockedKnown(s, t);
    match op
    case NewList(l) =>
    case DelayFor(ticks) => BlockUndisturbed(s, s.ev, ticks, false, t);
    case WaitOn(l, ticks) => PlaceUndisturbed(s, l, ticks, t);
    case WaitForBits(l, v, ticks) => PlaceUnorderedUndisturbed(s, l, v, ticks, t);
    case WakeFrom(l) => WakeHeadUndisturbed(s, l, t);
    case WakeWaiter(u, v) => WakeUnorderedUndisturbed(s, u, v, t);
    case ResetValue =>
  }

  lemma PlaceUndisturbed(s: K, l: ListId, ticks: nat, t: TaskId)
    requires Inv(s) && IsReady(s.lists, s.cpu.current) && Blocked(s.lists, t) && l in s.ev.waiting
    ensures Undisturbed(s, PlaceOnEventList(s, l, ticks), t)
  {
    hide Inv, ListsOk, EventsOk, Owned, Placed, Consistent, Configured, SortedInsert, Block;
    InvParts(s);
    BlockUndisturbed(s, InsertSorted(s.ev, l, s.cpu.current), ticks, true, t);
  }

  lemma PlaceUnorderedUndisturbed(s: K, l: ListId, v: nat, ticks: nat, t: TaskId)
    requires Inv(s) && IsReady(s.lists, s.cpu.current) && Blocked(s.lists, t) && l in s.ev.waiting
    ensures Undisturbed(s, PlaceOnUnordered(s, l, v, ticks), t)
  {
    hide Inv, ListsOk, EventsOk, Owned, Placed, Consistent, Configured, SortedInsert, Block;
    InvParts(s);
    BlockUndisturbed(s, Append(s.ev, l, s.cpu.current, v + s.cfg.inUse), ticks, true, t);
  }

  lemma WakeUnorderedUndisturbed(s: K, x: TaskId, v: nat, t: TaskId)
    requires Inv(s) && x in s.ev.at && s.ev.at[x].On? && Blocked(s.lists, t) && x != t
    ensures Undisturbed(s, WakeUnordered(s, x, v), t)
  {
    hide Inv, ListsOk, EventsOk, Owned, Placed, Consistent, Configured, MakeReady;
    InvParts(s);
    WaiterBlocked(s, x);
    BlockedKnown(s, t);
    SetValueKeeps(s, x, v + s.cfg.inUse);
    SetValueConsistent(s.ev, x, v + s.cfg.inUse);
    MakeReadyUndisturbed(s.(ev := s.ev.(value := s.ev.value[x := v + s.cfg.inUse])), x, t);
  }

  lemma MutexStepUndisturbed(s: K, op: MutexOp, r: K, t: TaskId)
    requires Inv(s) && MutexStep(s, op, r) && Blocked(s.lists, t) && !Touches(s, OnMutex(op), t)
    ensures Undisturbed(s, r, t)
  {
    hide Inv, ListsOk, EventsOk, Owned, Placed, Consistent, Configured, GiveBack, GiveMutex, BlockOnMutex, Take, Release;
    InvParts(s);
    BlockedKnown(s, t);
    match op
    case NewMutex(m, _) =>
    case TakeFree(m) =>
    case BlockOn(m, ticks) => BlockOnMutexUndisturbed(s, m, ticks, t);
    case Give(m) => if s.own.mutexes[m].messages != 1 { GiveMutexUndisturbed(s, m, t); }
    case TakeAgain(m) =>
    case GiveAgain(m) =>
      if s.own.mutexes[m].holder == Task(s.cpu.current) && s.own.mutexes[m].count <= 1 { GiveMutexUndisturbed(s, m, t); }
  }

  lemma BlockOnMutexUndisturbed(s: K, m: MutexId, ticks: nat, t: TaskId)
    requires Inv(s) && IsReady(s.lists, s.cpu.current) && m in s.own.mutexes && s.own.mutexes[m].messages == 0
    requires m in s.ev.waiting && Blocked(s.lists, t)
    ensures Undisturbed(s, BlockOnMutex(s, m, ticks), t)
  {
    hide Inv, ListsOk, EventsOk, Owned, Placed, Consistent, Configured, Repriced, PlaceOnEventList;
    HeldMutex(s, m);
    var h := s.own.mutexes[m].holder.id;
    InheritKeeps(s, h);
    InheritFrame(s, h);
    BlockedKnown(s, t);
    TaskKnown(s, h);
    InvParts(s);
    var p := s.prio[s.cpu.current];
    if s.prio[h] < p { RepricedUndisturbed(s, s.own, SetFreeValue(s.cfg, s.ev, h, s.cfg.P - p), h, p, t); }
    PlaceUndisturbed(Inherit(s, h), m, ticks, t);
    UndisturbedTrans(s, Inherit(s, h), BlockOnMutex(s, m, ticks), t);
  }

  lemma GiveMutexUndisturbed(s: K, m: MutexId, t: TaskId)
    requires Inv(s) && m in s.own.mutexes && s.own.mutexes[m].holder == Task(s.cpu.current) && m in s.ev.waiting
    requires Blocked(s.lists, t) && !HeadOf(s.ev, m, t)
    ensures Undisturbed(s, GiveMutex(s, m), t)
  {
    hide Inv, ListsOk, EventsOk, Owned, Placed, Consistent, Configured, Repriced, WakeHead, Release;
    GiveBackKeeps(s, m);
    GiveBackFrame(s, m);
    BlockedKnown(s, t);
    HolderFacts(s, m);
    var c := s.cpu.current;
    RepricedUndisturbed(s, Release(s.own, c, m), SetValue(s.ev, c, s.cfg.P - s.own.base[c]), c, s.own.base[c], t);
    var g := GiveBack(s, m);
    if g.ev.waiting[m] != [] {
      WakeHeadUndisturbed(g, m, t);
      UndisturbedTrans(s, g, WakeHead(g, m), t);
    }
  }

  // ------------------------------------------------------------------ sleepers and ticks

  lemma SleeperKnown(s: K, t: TaskId, w: nat, lo: nat)
    requires Core(s, lo) && Sleeping(s, t, w)
    ensures t in s.lists.delayed && lo <= w < s.clock.now + s.cfg.M && t in s.lists.at && t in s.ev.at
    ensures forall u :: u in s.lists.delayed ==> u in s.wake
  {
  }

  lemma ReadyKnown(s: K, t: TaskId, lo: nat)
    requires Core(s, lo) && IsReady(s.lists, t)
    ensures t !in s.lists.delayed && forall u :: u in s.lists.delayed ==> u in s.wake
  {
  }

  /** One tick: a sleeper sleeps on until the tick it is due, and is ready in that one. */
  lemma TickWakesOnTime(s: K, t: TaskId, w: nat)
    requires Core(s, s.clock.now + 1) && Sleeping(s, t, w)
    ensures TickNow(s).clock.now == s.clock.now + 1
    ensures s.clock.now + 1 < w ==> Sleeping(TickNow(s), t, w)
    ensures s.clock.now + 1 == w ==> IsReady(TickNow(s).lists, t)
    ensures w == s.clock.now + 1 || s.clock.now + 1 < w
  {
    hide Core, TickNow;
    SleeperKnown(s, t, w, s.clock.now + 1);
    TickNowExact(s);
  }

  lemma TickKeepsReady(s: K, t: TaskId)
    requires Core(s, s.clock.now + 1) && IsReady(s.lists, t)
    ensures IsReady(TickNow(s).lists, t)
  {
    hide Core, TickNow;
    ReadyKnown(s, t, s.clock.now + 1);
    TickNowExact(s);
  }

  /** Replayed ticks count like any others: after the `k`-th, the sleepers due by then are ready. */
  lemma {:induction false} ReplayWakesOnTime(s: K, k: nat, t: TaskId, w: nat)
    requires Core(s, s.clock.now + 1) && s.ev.pending == []
    requires Sleeping(s, t, w) || IsReady(s.lists, t)
    ensures Sleeping(s, t, w) && s.clock.now + k < w ==> Sleeping(Replay(s, k), t, w)
    ensures IsReady(s.lists, t) || w <= s.clock.now + k ==> IsReady(Replay(s, k).lists, t)
    decreases k
  {
    hide Core, TickNow, TickSwitches;
    if k == 0 {
      if Sleeping(s, t, w) { SleeperKnown(s, t, w, s.clock.now + 1); }
    } else {
      ReplayTickReplayed(s);
      if IsReady(s.lists, t) { TickKeepsReady(s, t); } else { TickWakesOnTime(s, t, w); }
      TickNowExact(s);
      ReplayWakesOnTime(ReplayTick(s), k - 1, t, w);
    }
  }

  lemma {:induction false} DrainSparesSleeper(s: K, t: TaskId, w: nat)
    requires Core(s, s.clock.now + 1) && Sleeping(s, t, w)
    ensures Sleeping(DrainPending(s), t, w)
    decreases |s.ev.pending|
  {
    hide Core, MakeReady;
    if s.ev.pending != [] {
      var x := s.ev.pending[0];
      PendingKnown(s, x);
      PendingTask(s, x, t, w);
      MakeReadyOnly(s, x);
      DrainOneExact(s);
      DrainSparesSleeper(DrainOne(s), t, w);
    }
  }

  lemma PendingTask(s: K, x: TaskId, t: TaskId, w: nat)
    requires Core(s, s.clock.now + 1) && Sleeping(s, t, w) && x in s.ev.pending
    ensures x != t && Placed(s.lists) && Consistent(s.ev) && x in s.lists.at && x in s.ev.at && x in s.prio
    ensures s.prio[x] < |s.lists.ready|
  {
  }

  lemma ResumeWakesOnTime(s: K, t: TaskId, w: nat)
    requires Inv(s) && s.clock.depth > 0 && Sleeping(s, t, w)
    ensures ResumeAll(s).clock.now < w ==> Sleeping(ResumeAll(s), t, w)
    ensures w <= ResumeAll(s).clock.now ==> IsReady(ResumeAll(s).lists, t)
  {
    hide ListsOk, EventsOk, Owned, Configured, DrainPending, Replay;
    SleeperKnown(s, t, w, s.clock.now + 1);
    var d := s.(clock := s.clock.(depth := s.clock.depth - 1));
    if d.clock.depth == 0 {
      DrainPendingKeeps(d);
      DrainSparesSleeper(d, t, w);
      ReplayKeeps(DrainPending(d), s.clock.pended);
      ReplayWakesOnTime(DrainPending(d), s.clock.pended, t, w);
    }
  }

  lemma ClockStepSleeper(s: K, op: ClockOp, r: K, t: TaskId, w: nat)
    requires Inv(s) && ClockStep(s, op, r) && Sleeping(s, t, w)
    ensures r.clock.now < w ==> Sleeping(r, t, w)
    ensures w <= r.clock.now ==> IsReady(r.lists, t)
  {
    hide Core, TickNow, ResumeAll;
    SleeperKnown(s, t, w, s.clock.now + 1);
    match op
    case TickInterrupt => if s.clock.depth == 0 { TickWakesOnTime(s, t, w); }
    case SuspendAll =>
    case EnableAll => ResumeWakesOnTime(s, t, w);
    case Switch =>
  }

  /** Whatever else happens, an untouched sleeper sleeps until it is due and is ready the moment it is. */
  lemma StepSleeper(s: K, op: Op, r: K, t: TaskId, w: nat)
    requires Inv(s) && Next(s, op, r) && Sleeping(s, t, w) && !Touches(s, op, t)
    ensures r.clock.now < w ==> Sleeping(r, t, w)
    ensures w <= r.clock.now ==> IsReady(r.lists, t)
  {
    hide Core, ClockStep, TaskStep, WaitStep, MutexStep;
    SleeperKnown(s, t, w, s.clock.now + 1);
    match op
    case OnClock(c) => ClockStepSleeper(s, c, r, t, w);
    case OnTask(k) => TaskStepUndisturbed(s, k, r, t);
    case OnWait(x) => WaitStepUndisturbed(s, x, r, t);
    case OnMutex(x) => MutexStepUndisturbed(s, x, r, t);
  }

  /** A task that blocks for a finite time sleeps until now plus that time, whatever it waits on. */
  lemma BlockStartsSleep(s: K, ev: Events, ticks: nat, canBlockIndefinitely: bool)
    requires Inv(s) && MayBlock(s, ticks) && !ForEver(s.cfg, ticks, canBlockIndefinitely)
    requires s.cpu.current in ev.at && ev.at[s.cpu.current] != Pending
    ensures Sleeping(Block(s, ev, ticks, canBlockIndefinitely), s.cpu.current, s.clock.now + ticks)
  {
    hide Inv, ListsOk, EventsOk, Owned, Placed, Consistent, Configured, SortedInsert, BlockLists, RingRemove;
    InvParts(s);
    var c := s.cpu.current;
    var w := s.wake[c := s.clock.now + ticks];
    assert forall u :: u in s.lists.delayed ==> u in w;
    BlockListsPlaced(s.lists, c, w, false);
  }

  lemma DelayStartsSleep(s: K, ticks: nat)
    requires Inv(s) && MayBlock(s, ticks)
    ensures Sleeping(Delay(s, ticks), s.cpu.current, s.clock.now + ticks)
  {
    hide Inv, Block, Sleeping;
    ReadyWaitsNowhere(s, s.cpu.current);
    BlockStartsSleep(s, s.ev, ticks, false);
  }

  lemma WaitStartsSleep(s: K, l: ListId, ticks: nat)
    requires Inv(s) && MayBlock(s, ticks) && l in s.ev.waiting && ticks + 1 != s.cfg.M
    ensures Sleeping(PlaceOnEventList(s, l, ticks), s.cpu.current, s.clock.now + ticks)
  {
    hide Inv, Block, Sleeping, Consistent, SortedInsert;
    ReadyWaitsNowhere(s, s.cpu.current);
    InvConsistent(s);
    BlockStartsSleep(s, InsertSorted(s.ev, l, s.cpu.current), ticks, true);
  }

  lemma WaitForBitsStartsSleep(s: K, l: ListId, value: nat, ticks: nat)
    requires Inv(s) && MayBlock(s, ticks) && l in s.ev.waiting && ticks + 1 != s.cfg.M
    ensures Sleeping(PlaceOnUnordered(s, l, value, ticks), s.cpu.current, s.clock.now + ticks)
  {
    hide Inv, Block, Sleeping, Consistent;
    ReadyWaitsNowhere(s, s.cpu.current);
    InvConsistent(s);
    BlockStartsSleep(s, Append(s.ev, l, s.cpu.current, value + s.cfg.inUse), ticks, true);
  }

  lemma BlockOnMutexStartsSleep(s: K, m: MutexId, ticks: nat)
    requires Inv(s) && MayBlock(s, ticks) && ticks + 1 != s.cfg.M
    requires m in s.own.mutexes && s.own.mutexes[m].messages == 0 && m in s.ev.waiting
    ensures Sleeping(BlockOnMutex(s, m, ticks), s.cpu.current, s.clock.now + ticks)
  {
    hide Inv, Inherit, PlaceOnEventList, Sleeping;
    HeldMutex(s, m);
    var h := s.own.mutexes[m].holder.id;
    InheritKeeps(s, h);
    InheritFrame(s, h);
    WaitStartsSleep(Inherit(s, h), m, ticks);
  }

  /** The operation blocks the running task for so many ticks, and not for ever. */
  predicate BlocksFor(c: Config, op: Op, ticks: nat) {
    match op
    case OnWait(DelayFor(d)) => d == ticks
    case OnWait(WaitOn(_, d)) => d == ticks && d + 1 != c.M
    case OnWait(WaitForBits(_, _, d)) => d == ticks && d + 1 != c.M
    case OnMutex(BlockOn(_, d)) => d == ticks && d + 1 != c.M
    case _ => false
  }

  /** The same for all four, as steps of a run. */
  lemma BlockingStartsSleep(s: K, op: Op, r: K, ticks: nat)
    requires Inv(s) && Next(s, op, r) && BlocksFor(s.cfg, op, ticks)
    ensures Sleeping(r, s.cpu.current, s.clock.now + ticks)
  {
    hide Inv, ClockStep, TaskStep, Sleeping, Delay, PlaceOnEventList, PlaceOnUnordered, BlockOnMutex;
    match op
    case OnWait(DelayFor(ticks)) => DelayStartsSleep(s, ticks);
    case OnWait(WaitOn(l, ticks)) => WaitStartsSleep(s, l, ticks);
    case OnWait(WaitForBits(l, v, ticks)) => WaitForBitsStartsSleep(s, l, v, ticks);
    case OnMutex(BlockOn(m, ticks)) => BlockOnMutexStartsSleep(s, m, ticks);
    case _ =>
  }

  /**
   Over every run, across any number of wraps of the tick counter: a task asleep until `w` that no
   call wakes, suspends or deletes is asleep in every state before absolute tick `w` ...
   */
  lemma {:induction false} SleepsUntilDue(states: seq<K>, ops: seq<Op>, t: TaskId, w: nat, n: nat)
    requires IsRun(states, ops) && Inv(states[0]) && Sleeping(states[0], t, w) && n < |states|
    requires forall i :: 0 <= i < n ==> !Touches(states[i], ops[i], t) && states[i].clock.now < w
    ensures states[n].clock.now < w ==> Sleeping(states[n], t, w)
  {
    hide Inv, Next, Sleeping, Touches;
    if n > 0 {
      SleepsUntilDue(states, ops, t, w, n - 1);
      RunKeeps(states, ops, n - 1);
      assert Step(states[n - 1], ops[n - 1], states[n]);
      StepSleeper(states[n - 1], ops[n - 1], states[n], t, w);
    }
  }

  /** ... and is ready in the first state at or after it. */
  lemma ReadyWhenDue(states: seq<K>, ops: seq<Op>, t: TaskId, w: nat, n: nat)
    requires IsRun(states, ops) && Inv(states[0]) && Sleeping(states[0], t, w) && 0 < n < |states|
    requires forall i :: 0 <= i < n ==> !Touches(states[i], ops[i], t) && states[i].clock.now < w
    requires w <= states[n].clock.now
    ensures IsReady(states[n].lists, t)
  {
    hide Inv, Next, Sleeping, Touches, IsReady;
    SleepsUntilDue(states, ops, t, w, n - 1);
    RunKeeps(states, ops, n - 1);
    assert Step(states[n - 1], ops[n - 1], states[n]);
    StepSleeper(states[n - 1], ops[n - 1], states[n], t, w);
  }

  lemma LaterRun(states: seq<K>, ops: seq<Op>)
    requires IsRun(states, ops) && |ops| > 0
    ensures IsRun(states[1..], ops[1..])
  {
    hide Step;
    forall i | 0 <= i < |ops[1..]| ensures Step(states[1..][i], ops[1..][i], states[1..][i + 1]) {
      assert Step(states[i + 1], ops[i + 1], states[i + 2]);
    }
  }

  /**
   From blocking to waking: a task that blocks at tick T for d ticks, and that no call wakes, suspends or
   deletes, sleeps in every state before tick T + d and is ready in the first state that has reached it.
   */
  lemma BlockedExactlyThatLong(states: seq<K>, ops: seq<Op>, ticks: nat, n: nat)
    requires IsRun(states, ops) && Inv(states[0]) && 1 < n < |states| && BlocksFor(states[0].cfg, ops[0], ticks)
    requires forall i :: 1 <= i < n ==>
      !Touches(states[i], ops[i], states[0].cpu.current) && states[i].clock.now < states[0].clock.now + ticks
    ensures var t, w := states[0].cpu.current, states[0].clock.now + ticks;
      if states[n].clock.now < w then Sleeping(states[n], t, w) else IsReady(states[n].lists, t)
  {
    hide Inv, Next, Step, Sleeping, Touches, BlocksFor, IsReady;
    var t, w, later, after := states[0].cpu.current, states[0].clock.now + ticks, states[1..], ops[1..];
    FirstStep(states, ops);
    StepKeeps(states[0], ops[0], states[1]);
    BlockingStartsSleep(states[0], ops[0], states[1], ticks);
    LaterRun(states, ops);
    assert forall i :: 0 <= i < n - 1 ==> later[i] == states[i + 1] && after[i] == ops[i + 1];
    if states[n].clock.now < w {
      SleepsUntilDue(later, after, t, w, n - 1);
    } else {
      ReadyWhenDue(later, after, t, w, n - 1);
    }
  }

  lemma FirstStep(states: seq<K>, ops: seq<Op>)
    requires IsRun(states, ops) && Inv(states[0]) && |ops| > 0
    ensures Next(states[0], ops[0], states[1])
  {
    hide Inv, Next;
    assert Step(states[0], ops[0], states[1]);
  }
}

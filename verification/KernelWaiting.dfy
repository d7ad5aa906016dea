/**
 The order in which tasks wait: by priority, and first come first served among equals, as long as the waiting
 tasks keep their priorities; so the task that is woken is one of the highest priority.
 */
module KernelWaiting {
  import opened Sequences
  import opened StateLists
  import opened EventItems
  import opened Ownership
  import opened KernelSpec
  import opened KernelOps
  import opened KernelOwnership
  import opened KernelMutex
  import opened KernelRuns
  import opened KernelTicks
  import opened KernelPriority

  // ------------------------------------------------------------------ lists that only lose members

  ghost predicate Ranked(s: seq<TaskId>, key: map<TaskId, nat>) {
    (forall t :: t in s ==> t in key) && Sorted(s, key)
  }

  /** `b` is `a` with some members taken out, in whatever order `a` was. */
  ghost predicate Thins(a: seq<TaskId>, b: seq<TaskId>) {
    && (forall t :: t in b ==> t in a)
    && (forall key: map<TaskId, nat> :: Ranked(a, key) ==> Ranked(b, key))
  }

  lemma ThinsWithout(a: seq<TaskId>, t: TaskId)
    ensures Thins(a, Without(a, t))
  {
    forall key: map<TaskId, nat> | Ranked(a, key) ensures Ranked(Without(a, t), key) {
      WithoutSorted(a, key, t);
    }
  }

  ghost predicate AllThin(e: Events, r: Events) {
    forall l :: l in e.waiting ==> l in r.waiting && Thins(e.waiting[l], r.waiting[l])
  }

  lemma ThinsSame(e: Events, r: Events)
    requires forall l :: l in e.waiting ==> l in r.waiting && r.waiting[l] == e.waiting[l]
    ensures AllThin(e, r)
  {
  }

  lemma ThinsTrans(e: Events, m: Events, r: Events)
    requires AllThin(e, m) && AllThin(m, r)
    ensures AllThin(e, r)
  {
  }

  lemma RemoveThins(e: Events, t: TaskId)
    requires Consistent(e) && t in e.at
    ensures AllThin(e, EventItems.Remove(e, t)) && AllThin(e, Defer(e, t))
  {
    hide Thins, Without;
    forall a ensures Thins(a, Without(a, t)) && Thins(a, a) {
      ThinsWithout(a, t);
      ThinsItself(a);
    }
  }

  lemma ThinsItself(a: seq<TaskId>)
    ensures Thins(a, a)
  {
  }

  // ------------------------------------------------------------------ steps that only take tasks off lists

  lemma MakeReadyThins(s: K, t: TaskId)
    requires Placed(s.lists) && t in s.lists.at && Consistent(s.ev) && t in s.ev.at && t in s.prio && s.prio[t] < |s.lists.ready|
    ensures AllThin(s.ev, MakeReady(s, t).ev)
  {
    hide Placed, Consistent, AllThin, ToReady;
    RemoveThins(s.ev, t);
  }

  lemma WakeThins(s: K, t: TaskId)
    requires Inv(s) && Blocked(s.lists, t)
    ensures AllThin(s.ev, Wake(s, t).ev)
  {
    hide Inv, Placed, Consistent, AllThin, MakeReady;
    BlockedParts(s, t);
    MakeReadyThins(s, t);
    RemoveThins(s.ev, t);
  }

  lemma BlockedParts(s: K, t: TaskId)
    requires Inv(s) && Blocked(s.lists, t)
    ensures Placed(s.lists) && Consistent(s.ev) && t in s.ev.at && t in s.prio && s.prio[t] < |s.lists.ready|
  {
    hide Inv, Placed, Consistent, ListsOk, EventsOk, Owned, Configured;
    InvParts(s);
  }

  lemma WakeHeadThins(s: K, l: ListId)
    requires Inv(s) && l in s.ev.waiting && s.ev.waiting[l] != []
    ensures AllThin(s.ev, WakeHead(s, l).ev)
  {
    hide Core, Wake, AllThin;
    var t := s.ev.waiting[l][0];
    WaiterKnown(s, l, t, s.clock.now + 1);
    WakeThins(s, t);
  }

  lemma {:induction false} ReleaseDueThins(s: K)
    requires Core(s, s.clock.now)
    ensures AllThin(s.ev, ReleaseDue(s).ev)
    decreases |s.lists.delayed|
  {
    hide Core, MakeReady, Without, AllThin, ListsOk, EventsOk, Owned, Configured, Placed, Consistent, HasDue;
    DelayedHaveTimes(s, s.clock.now);
    CoreParts(s, s.clock.now);
    if HasDue(s) {
      DueHead(s);
      var t := s.lists.delayed[0];
      DelayedKnown(s, t, s.clock.now);
      MakeReadyKeeps(s, t, s.clock.now);
      MakeReadyOnly(s, t);
      MakeReadyThins(s, t);
      ReleaseDueThins(MakeReady(s, t));
      ThinsTrans(s.ev, MakeReady(s, t).ev, ReleaseDue(s).ev);
    } else {
      ThinsSame(s.ev, s.ev);
    }
  }

  lemma TickThins(s: K)
    requires Core(s, s.clock.now + 1)
    ensures AllThin(s.ev, TickNow(s).ev)
  {
    hide Core, ReleaseDue, AllThin;
    TimePasses(s);
    ReleaseDueThins(s.(clock := s.clock.(now := s.clock.now + 1)));
  }

  lemma DrainOneThins(s: K)
    requires Core(s, s.clock.now + 1) && s.ev.pending != []
    ensures AllThin(s.ev, DrainOne(s).ev)
  {
    hide Core, MakeReady, AllThin, ListsOk, EventsOk, Owned, Configured, Placed, Consistent;
    CoreParts(s, s.clock.now + 1);
    PendingKnown(s, s.ev.pending[0]);
    MakeReadyThins(s, s.ev.pending[0]);
  }

  lemma {:induction false} DrainThins(s: K)
    requires Core(s, s.clock.now + 1)
    ensures AllThin(s.ev, DrainPending(s).ev)
    decreases |s.ev.pending|
  {
    hide Core, DrainOne, AllThin;
    if s.ev.pending == [] {
      ThinsSame(s.ev, s.ev);
    } else {
      DrainOneExact(s);
      DrainOneThins(s);
      DrainThins(DrainOne(s));
      ThinsTrans(s.ev, DrainOne(s).ev, DrainPending(s).ev);
    }
  }

  lemma {:induction false} ReplayThins(s: K, k: nat)
    requires Core(s, s.clock.now + 1) && s.ev.pending == []
    ensures AllThin(s.ev, Replay(s, k).ev)
    decreases k
  {
    hide Core, TickNow, TickSwitches, AllThin;
    if k == 0 {
      ThinsSame(s.ev, s.ev);
    } else {
      ReplayTickExact(s);
      TickThins(s);
      ReplayThins(ReplayTick(s), k - 1);
      ThinsTrans(s.ev, ReplayTick(s).ev, Replay(s, k).ev);
    }
  }

  lemma ClockStepThins(s: K, op: ClockOp, r: K)
    requires Inv(s) && ClockStep(s, op, r)
    ensures AllThin(s.ev, r.ev)
  {
    hide Core, TickNow, ResumeAll, AllThin;
    ThinsSame(s.ev, s.ev);
    match op
    case TickInterrupt => if s.clock.depth == 0 { TickThins(s); }
    case EnableAll => ResumeThins(s);
    case _ =>
  }

  lemma ResumeThins(s: K)
    requires Inv(s) && s.clock.depth > 0
    ensures AllThin(s.ev, ResumeAll(s).ev)
  {
    hide ListsOk, EventsOk, Owned, Configured, DrainPending, Replay, AllThin;
    var d := s.(clock := s.clock.(depth := s.clock.depth - 1));
    ThinsSame(s.ev, s.ev);
    if d.clock.depth == 0 {
      DrainPendingKeeps(d);
      DrainThins(d);
      ReplayThins(DrainPending(d), s.clock.pended);
      ThinsTrans(s.ev, DrainPending(d).ev, Replay(DrainPending(d), s.clock.pended).ev);
    }
  }

  lemma ForgetThins(e: Events, t: TaskId)
    requires Consistent(e) && t in e.at
    ensures AllThin(e, ForgetEvents(e, t))
  {
    hide Consistent, AllThin, EventItems.Remove;
    RemoveThins(e, t);
    ThinsSame(EventItems.Remove(e, t), ForgetEvents(e, t));
    ThinsTrans(e, EventItems.Remove(e, t), ForgetEvents(e, t));
  }

  lemma TaskStepThins(s: K, op: TaskOp, r: K)
    requires Inv(s) && TaskStep(s, op, r)
    ensures AllThin(s.ev, r.ev)
  {
    hide Core, CreateLists, SuspendLists, ToReady, TerminateLists, ForgetLists, ForgetEvents, MoveLists, MakeReady, Wake,
      EventItems.Remove, Defer, Consistent, Placed, ListsOk, EventsOk, Owned, Configured, AllThin;
    CoreParts(s, s.clock.now + 1);
    ThinsSame(s.ev, s.ev);
    match op
    case CreateTask(t, p) => ThinsSame(s.ev, r.ev);
    case DeleteTask(t) =>
      RemoveThins(s.ev, t);
      ForgetThins(s.ev, t);
    case IdleCleanUp =>
      CleanUpFirst(s);
      ForgetThins(s.ev, s.lists.termination[0]);
    case SuspendTask(t) => RemoveThins(s.ev, t);
    case ResumeTask(t) => if IsSuspended(s, t) { MakeReadyThins(s, t); }
    case ResumeTaskFromISR(t) => if IsSuspended(s, t) { WakeThins(s, t); }
    case SetTaskPriority(t, p) => ThinsSame(s.ev, r.ev);
  }

  // ------------------------------------------------------------------ steps that may put the running task on a list

  /** The running task joins list `l` at the place its item value gives it. */
  ghost predicate Joins(s: K, r: K, l: ListId) {
    && l in s.ev.waiting && l in r.ev.waiting && s.cpu.current in s.ev.value
    && (forall t :: t in s.ev.waiting[l] ==> t in s.ev.value)
    && r.ev.waiting[l] == SortedInsert(s.ev.waiting[l], s.ev.value, s.cpu.current)
  }

  ghost predicate ThinsAt(s: K, r: K, l: ListId) {
    l in s.ev.waiting && l in r.ev.waiting && Thins(s.ev.waiting[l], r.ev.waiting[l])
  }

  lemma ThinAt(s: K, r: K, l: ListId)
    requires AllThin(s.ev, r.ev) && l in s.ev.waiting
    ensures ThinsAt(s, r, l)
  {
  }

  lemma SameAt(s: K, r: K, l: ListId)
    requires l in s.ev.waiting && l in r.ev.waiting && r.ev.waiting[l] == s.ev.waiting[l]
    ensures ThinsAt(s, r, l)
  {
  }

  lemma PlaceLists(s: K, k: ListId, ticks: nat, l: ListId)
    requires Inv(s) && IsReady(s.lists, s.cpu.current) && k in s.ev.waiting && l in s.ev.waiting
    ensures var r := PlaceOnEventList(s, k, ticks);
      if k == l then Joins(s, r, l) else ThinsAt(s, r, l)
  {
    hide Inv, Placed, ListsOk, EventsOk, Owned, Configured, BlockLists, SortedInsert, Thins;
    InvParts(s);
    CurrentParts(s);
    if k != l { SameAt(s, PlaceOnEventList(s, k, ticks), l); }
  }

  lemma WaitStepLists(s: K, op: WaitOp, r: K, l: ListId)
    requires Inv(s) && WaitStep(s, op, r) && l in s.ev.waiting && !(op.WaitForBits? && op.l == l)
    ensures if op.WaitOn? && op.l == l then Joins(s, r, l) else ThinsAt(s, r, l)
  {
    hide Inv, Placed, Consistent, ListsOk, EventsOk, Owned, Configured, BlockLists,
        WakeHead, AnswerWaiter, PlaceOnEventList, ThinsAt, Joins;
    match op
    case NewList(k) => SameAt(s, r, l);
    case DelayFor(ticks) => SameAt(s, r, l);
    case WaitOn(k, ticks) => PlaceLists(s, k, ticks, l);
    case WaitForBits(k, v, ticks) => InvConsistent(s); SameAt(s, r, l);
    case WakeFrom(k) => WakeHeadThins(s, k); ThinAt(s, r, l);
    case WakeWaiter(t, v) => WaiterParts(s, t); AnswerThins(s, t, v + s.cfg.inUse); ThinAt(s, r, l);
    case ResetValue => SameAt(s, r, l);
  }

  lemma AnswerThins(s: K, t: TaskId, v: nat)
    requires Placed(s.lists) && t in s.lists.at && Consistent(s.ev) && t in s.ev.at
    requires t in s.prio && s.prio[t] < |s.lists.ready| && s.cpu.current in s.prio
    ensures AllThin(s.ev, AnswerWaiter(s, t, v).ev)
  {
    hide Placed, Consistent, AllThin, MakeReady;
    SetValueConsistent(s.ev, t, v);
    var m := s.(ev := SetValue(s.ev, t, v));
    ThinsSame(s.ev, m.ev);
    MakeReadyThins(m, t);
    ThinsTrans(s.ev, m.ev, MakeReady(m, t).ev);
  }

  lemma GiveThins(s: K, m: MutexId)
    requires Inv(s) && m in s.own.mutexes && s.own.mutexes[m].holder == Task(s.cpu.current) && m in s.ev.waiting
    ensures AllThin(s.ev, GiveMutex(s, m).ev)
  {
    hide Inv, GiveBack, WakeHead, AllThin;
    GiveBackKeeps(s, m);
    GiveBackFrame(s, m);
    var r := GiveBack(s, m);
    ThinsSame(s.ev, r.ev);
    if r.ev.waiting[m] != [] {
      WakeHeadThins(r, m);
      ThinsTrans(s.ev, r.ev, WakeHead(r, m).ev);
    }
  }

  lemma MutexStepThins(s: K, op: MutexOp, r: K)
    requires Inv(s) && MutexStep(s, op, r) && !op.BlockOn?
    ensures AllThin(s.ev, r.ev)
  {
    hide Inv, GiveMutex, BlockOnMutex, AllThin, Take;
    ThinsSame(s.ev, s.ev);
    match op
    case NewMutex(m, _) => ThinsSame(s.ev, r.ev);
    case TakeFree(m) => ThinsSame(s.ev, r.ev);
    case Give(m) => if s.own.mutexes[m].messages != 1 { GiveThins(s, m); }
    case TakeAgain(m) => ThinsSame(s.ev, r.ev);
    case GiveAgain(m) =>
      if s.own.mutexes[m].holder == Task(s.cpu.current) && s.own.mutexes[m].count <= 1 {
        GiveThins(s, m);
      } else {
        ThinsSame(s.ev, r.ev);
      }
  }

  // ------------------------------------------------------------------ priorities and item values

  /** The task's item has the value of its priority. */
  ghost predicate Normal(s: K, t: TaskId) {
    t in s.prio && t in s.ev.value && s.ev.value[t] + s.prio[t] == s.cfg.P
  }

  /** Everyone on the list has the item value of its priority, and the list is in the order of these values. */
  ghost predicate ByPriority(s: K, l: ListId) {
    && l in s.ev.waiting && (forall t :: t in s.ev.waiting[l] ==> Normal(s, t))
    && Ranked(s.ev.waiting[l], s.ev.value)
  }

  /** Nobody on the list has a higher priority than the first. */
  lemma HeadIsHighest(s: K, l: ListId, t: TaskId)
    requires ByPriority(s, l) && t in s.ev.waiting[l]
    ensures s.ev.waiting[l][0] in s.prio && t in s.prio && s.prio[t] <= s.prio[s.ev.waiting[l][0]]
  {
    var w := s.ev.waiting[l];
    var i :| 0 <= i < |w| && w[i] == t;
    assert w[0] in w;
    if i > 0 { assert s.ev.value[w[0]] <= s.ev.value[w[i]]; }
  }

  /** So the task that is woken, or noted to be woken, has the highest priority of all that wait. */
  lemma WakesHighest(s: K, l: ListId, t: TaskId)
    requires Inv(s) && ByPriority(s, l) && t in s.ev.waiting[l]
    ensures var h := s.ev.waiting[l][0];
      && h in s.prio && t in s.prio && s.prio[t] <= s.prio[h]
      && h in WakeHead(s, l).ev.at && (WakeHead(s, l).ev.at[h] == Nowhere || WakeHead(s, l).ev.at[h] == Pending)
  {
    hide Core, MakeReady, Defer;
    HeadIsHighest(s, l, t);
    var h := s.ev.waiting[l][0];
    assert h in s.ev.waiting[l];
    WaiterKnown(s, l, h, s.clock.now + 1);
    BlockedParts(s, h);
    MakeReadyOff(s, h);
    DeferConsistent(s.ev, h);
  }

  lemma MakeReadyOff(s: K, t: TaskId)
    requires Placed(s.lists) && t in s.lists.at && Consistent(s.ev) && t in s.ev.at && t in s.prio && s.prio[t] < |s.lists.ready|
    ensures t in MakeReady(s, t).ev.at && MakeReady(s, t).ev.at[t] == Nowhere
  {
    hide Placed, Consistent, ToReady;
    RemoveConsistent(s.ev, t);
  }

  // ------------------------------------------------------------------ item values follow priorities

  /** Every item value that is not in use by an event group is that of its task's priority. */
  ghost predicate Valued(s: K) {
    forall t :: t in s.prio ==> t in s.ev.value && (s.ev.value[t] < s.cfg.inUse ==> Normal(s, t))
  }

  /**
   `vTaskPrioritySet` finds the task at its own priority, or gives it the base it has, or the priority it inherits;
   or the task's item is in use.
   */
  predicate ValueSafe(s: K, op: Op) {
    op.OnTask? && op.k.SetTaskPriority? ==>
      var t := op.k.t;
      && t in s.prio && t in s.own.base && t in s.ev.value
      && (s.prio[t] == s.own.base[t] || op.k.p == s.own.base[t] || op.k.p == s.prio[t] || s.ev.value[t] >= s.cfg.inUse)
  }

  /** That is the exact condition: otherwise the item gets the value of the new base, and not of the priority. */
  lemma RepriceKeepsValue(s: K, t: TaskId, p: nat)
    requires Inv(s) && Valued(s) && t in s.prio && p < s.cfg.P
    ensures var r := PrioritySet(s, t, p);
      && t in r.prio && t in r.ev.value
      && ((r.ev.value[t] < r.cfg.inUse ==> Normal(r, t)) <==> ValueSafe(s, OnTask(SetTaskPriority(t, p))))
  {
    hide Inv, MoveLists, ListsOk, EventsOk, Owned, Placed, Consistent;
    InvParts(s);
    TaskKnown(s, t);
  }

  /** A new task is ready at the priority asked for, that of its base and of its item value, and holds nothing. */
  lemma CreatedAs(s: K, t: TaskId, p: nat)
    requires Inv(s) && t !in s.prio && p < s.cfg.P
    ensures var r := KernelOps.Create(s, t, p);
      && t in r.prio && r.prio[t] == p && t in r.own.base && r.own.base[t] == p && t in r.own.held && r.own.held[t] == 0
      && t in r.lists.at && r.lists.at[t] == Ready(p) && t in r.ev.at && r.ev.at[t] == Nowhere && Normal(r, t)
      && r.cpu.top >= p
  {
    hide Core, CreateLists, ListsOk, EventsOk, Owned, Placed, Consistent;
    CoreParts(s, s.clock.now + 1);
    CreateListsPlaced(s.lists, t, p);
  }

  lemma StartedValued(cfg: Config, idle: TaskId)
    ensures Valued(Started(cfg, idle))
  {
  }

  lemma TaskStepValued(s: K, op: TaskOp, r: K)
    requires Inv(s) && TaskStep(s, op, r) && Valued(s) && ValueSafe(s, OnTask(op))
    ensures Valued(r)
  {
    hide Core, TaskStep, ValueSafe, Normal;
    TaskKeeps(s, op, r);
    TaskStepMutexes(s, op, r);
    forall t | t in r.prio ensures t in r.ev.value && (r.ev.value[t] < r.cfg.inUse ==> Normal(r, t)) {
      TaskIsKnown(r, t);
      if t !in s.prio {
        NewValued(s, op, r, t);
      } else if Reprices(op, t) {
        RepricedValued(s, op, r);
      } else {
        TaskStepUnchanged(s, op, r, t);
        StillNormal(s, r, t);
      }
    }
  }

  lemma StillNormal(s: K, r: K, t: TaskId)
    requires Unchanged(s, r, t) && r.cfg == s.cfg
    ensures Normal(r, t) <==> Normal(s, t)
  {
  }

  lemma NewValued(s: K, op: TaskOp, r: K, t: TaskId)
    requires Inv(s) && TaskStep(s, op, r) && t !in s.prio && t in r.prio
    ensures Normal(r, t)
  {
    hide Core, KernelOps.Create, SuspendLists, ToReady, TerminateLists, ForgetLists, ForgetEvents, MoveLists, SetFreeValue,
      EventItems.Remove, Normal;
    if op.CreateTask? {
      OthersNotCreated(s, op.t, op.p, t);
      CreatedAs(s, op.t, op.p);
    }
  }

  lemma OthersNotCreated(s: K, u: TaskId, p: nat, t: TaskId)
    requires Inv(s) && u !in s.prio && p < s.cfg.P && t !in s.prio && t in KernelOps.Create(s, u, p).prio
    ensures t == u
  {
    hide Core, CreateLists;
  }

  lemma RepricedValued(s: K, op: TaskOp, r: K)
    requires Inv(s) && TaskStep(s, op, r) && Valued(s) && ValueSafe(s, OnTask(op)) && op.SetTaskPriority?
    ensures op.t in r.ev.value && (r.ev.value[op.t] < r.cfg.inUse ==> Normal(r, op.t))
  {
    hide Core, PrioritySet, Normal, ValueSafe, Valued;
    RepriceKeepsValue(s, op.t, op.p);
  }

  lemma WaitStepValued(s: K, op: WaitOp, r: K)
    requires Inv(s) && WaitStep(s, op, r) && Valued(s)
    ensures Valued(r)
  {
    hide Core, WaitStep;
    WaitStepSame(s, op, r);
    forall t | t in r.prio ensures t in r.ev.value && (r.ev.value[t] < r.cfg.inUse ==> Normal(r, t)) {
      WaitStepValues(s, op, r, t);
      if r.ev.value[t] != s.ev.value[t] { NewWaitValue(s, op, r, t); }
    }
  }

  lemma NewWaitValue(s: K, op: WaitOp, r: K, t: TaskId)
    requires Inv(s) && WaitStep(s, op, r) && t in s.prio && t in s.ev.value && t in r.ev.value && r.ev.value[t] != s.ev.value[t]
    ensures r.ev.value[t] >= s.cfg.inUse || r.ev.value[t] + s.prio[t] == s.cfg.P
  {
    hide Core, WakeHead, WakeUnordered, ResetItemValue, BlockLists, SortedInsert;
    match op
    case WakeFrom(l) => WakeHeadSame(s, l);
    case WakeWaiter(u, v) => WakeUnorderedValues(s, u, v);
    case ResetValue => ResetItemValueKeeps(s); CurrentParts(s);
    case _ =>
  }

  lemma InheritValued(s: K, h: TaskId)
    requires Inv(s) && h in s.prio && IsReady(s.lists, s.cpu.current) && Valued(s)
    ensures Valued(Inherit(s, h))
  {
    hide Inv, MoveLists, Placed, Consistent, ListsOk, EventsOk, Owned, Configured;
    InvParts(s);
    TaskKnown(s, h);
    InheritFrame(s, h);
  }

  lemma PlaceValued(s: K, m: ListId, ticks: nat)
    requires Inv(s) && IsReady(s.lists, s.cpu.current) && m in s.ev.waiting && Valued(s)
    ensures Valued(PlaceOnEventList(s, m, ticks))
  {
    hide Inv, BlockLists, SortedInsert, Placed, Consistent, ListsOk, EventsOk, Owned, Configured;
    InvParts(s);
  }

  lemma BlockOnValued(s: K, m: MutexId, ticks: nat)
    requires Inv(s) && IsReady(s.lists, s.cpu.current) && m in s.own.mutexes && s.own.mutexes[m].messages == 0 && m in s.ev.waiting
    requires Valued(s)
    ensures Valued(BlockOnMutex(s, m, ticks))
  {
    hide Inv, Inherit, PlaceOnEventList, Valued;
    HeldMutex(s, m);
    var h := s.own.mutexes[m].holder.id;
    InheritKeeps(s, h);
    InheritFrame(s, h);
    InheritValued(s, h);
    PlaceValued(Inherit(s, h), m, ticks);
  }

  lemma GiveBackValued(s: K, m: MutexId)
    requires Inv(s) && m in s.own.mutexes && s.own.mutexes[m].holder == Task(s.cpu.current) && Valued(s)
    ensures Valued(GiveBack(s, m))
  {
    hide Inv, MoveLists, Placed, Consistent, ListsOk, EventsOk, Owned, Configured, Release;
    InvParts(s);
    HolderFacts(s, m);
  }

  lemma SameValued(s: K, r: K)
    requires SamePriorities(s, r) && Valued(s)
    ensures Valued(r)
  {
  }

  lemma GiveValued(s: K, m: MutexId)
    requires Inv(s) && m in s.own.mutexes && s.own.mutexes[m].holder == Task(s.cpu.current) && m in s.ev.waiting && Valued(s)
    ensures Valued(GiveMutex(s, m))
  {
    hide Inv, GiveBack, WakeHead, Valued, SamePriorities;
    GiveBackKeeps(s, m);
    GiveBackFrame(s, m);
    GiveBackValued(s, m);
    var r := GiveBack(s, m);
    if r.ev.waiting[m] != [] {
      WakeHeadSame(r, m);
      SameValued(r, WakeHead(r, m));
    }
  }

  lemma MutexStepValued(s: K, op: MutexOp, r: K)
    requires Inv(s) && MutexStep(s, op, r) && Valued(s)
    ensures Valued(r)
  {
    hide Inv, GiveMutex, BlockOnMutex, Take;
    match op
    case BlockOn(m, ticks) => BlockOnValued(s, m, ticks);
    case Give(m) => if s.own.mutexes[m].messages != 1 { GiveValued(s, m); }
    case GiveAgain(m) =>
      if s.own.mutexes[m].holder == Task(s.cpu.current) && s.own.mutexes[m].count <= 1 { GiveValued(s, m); }
    case _ =>
  }

  lemma StepValued(s: K, op: Op, r: K)
    requires Inv(s) && Next(s, op, r) && Valued(s) && ValueSafe(s, op)
    ensures Valued(r)
  {
    hide Core, ClockStep, TaskStep, WaitStep, MutexStep, Valued, ValueSafe, SamePriorities;
    match op
    case OnClock(c) => ClockStepPriorities(s, c, r); SameValued(s, r);
    case OnTask(k) => TaskStepValued(s, k, r);
    case OnWait(w) => WaitStepValued(s, w, r);
    case OnMutex(x) => MutexStepValued(s, x, r);
  }

  /**
   Over every run whose priority changes are safe in this sense, each task's item value is that of its priority, or in
   use: creation, inheritance, giving back, priority changes and the reset after an event group wait all see to it.
   */
  lemma {:induction false} ValuesFollowPriorities(states: seq<K>, ops: seq<Op>, n: nat)
    requires IsRun(states, ops) && Inv(states[0]) && Valued(states[0]) && n < |states|
    requires forall i :: 0 <= i < n ==> ValueSafe(states[i], ops[i])
    ensures Valued(states[n])
  {
    hide Inv, Next, Valued, ValueSafe;
    if n > 0 {
      ValuesFollowPriorities(states, ops, n - 1);
      RunKeeps(states, ops, n - 1);
      assert Step(states[n - 1], ops[n - 1], states[n]);
      StepValued(states[n - 1], ops[n - 1], states[n]);
    }
  }

  // ------------------------------------------------------------------ leaving the waiters alone

  /** The task's item is free: it has fetched what an event group left in it. */
  predicate Fetched(s: K, t: TaskId) {
    t in s.ev.value && s.ev.value[t] < s.cfg.inUse
  }

  /** No waiting task's priority or item value is touched, and a task that joins comes with a free item. */
  ghost predicate Leaves(s: K, op: Op, l: ListId) {
    l in s.ev.waiting &&
    match op
    case OnTask(SetTaskPriority(t, _)) => t !in s.ev.waiting[l]
    case OnWait(WaitForBits(k, _, _)) => k != l
    case OnWait(WaitOn(k, _)) => k == l ==> Fetched(s, s.cpu.current)
    case OnMutex(BlockOn(m, _)) =>
      (m == l ==> Fetched(s, s.cpu.current)) && (m in s.own.mutexes && s.own.mutexes[m].holder.Task? ==>
        s.own.mutexes[m].holder.id !in s.ev.waiting[l] && s.own.mutexes[m].holder.id != s.cpu.current)
    case _ => true
  }

  lemma LeavesInOrder(s: K, op: Op, l: ListId)
    requires Inv(s) && Valued(s) && Leaves(s, op, l)
    ensures LeavesOrder(s, op, l)
  {
    hide Inv;
    CurrentParts(s);
  }

  /** The same, where the joining task's item has the value of its priority. */
  ghost predicate LeavesOrder(s: K, op: Op, l: ListId) {
    l in s.ev.waiting &&
    match op
    case OnTask(SetTaskPriority(t, _)) => t !in s.ev.waiting[l]
    case OnWait(WaitForBits(k, _, _)) => k != l
    case OnWait(WaitOn(k, _)) => k == l ==> Normal(s, s.cpu.current)
    case OnMutex(BlockOn(m, _)) =>
      (m == l ==> Normal(s, s.cpu.current)) && (m in s.own.mutexes && s.own.mutexes[m].holder.Task? ==>
        s.own.mutexes[m].holder.id !in s.ev.waiting[l] && s.own.mutexes[m].holder.id != s.cpu.current)
    case _ => true
  }

  lemma WaitersKnown(s: K, l: ListId)
    requires Inv(s) && l in s.ev.waiting
    ensures forall t :: t in s.ev.waiting[l] ==>
        t in s.prio && t in s.ev.value && t in s.ev.at && s.ev.at[t] == On(l) && Blocked(s.lists, t)
  {
    hide Core;
    forall t | t in s.ev.waiting[l] ensures t in s.prio && t in s.ev.value && t in s.ev.at && s.ev.at[t] == On(l) && Blocked(s.lists, t) {
      WaiterKnown(s, l, t, s.clock.now + 1);
      TaskKnown(s, t);
    }
  }

  /** Task `t` keeps its priority and item value. */
  ghost predicate Unchanged(s: K, r: K, t: TaskId) {
    t in s.prio && t in r.prio && r.prio[t] == s.prio[t] && t in s.ev.value && t in r.ev.value && r.ev.value[t] == s.ev.value[t]
  }

  lemma TaskStepUnchanged(s: K, op: TaskOp, r: K, t: TaskId)
    requires Inv(s) && TaskStep(s, op, r) && Inv(r) && t in s.prio && t in r.prio && !Reprices(op, t)
    ensures Unchanged(s, r, t)
  {
    hide Inv, TaskStep;
    TaskIsKnown(s, t);
    TaskIsKnown(r, t);
    TaskStepSame(s, op, r, t);
    TaskStepValues(s, op, r, t);
  }

  lemma WaitStepUnchanged(s: K, op: WaitOp, r: K, l: ListId, t: TaskId)
    requires Inv(s) && WaitStep(s, op, r) && Inv(r) && l in r.ev.waiting && t in r.ev.waiting[l]
    requires l in s.ev.waiting && (t in s.ev.waiting[l] || (op.WaitOn? && t == s.cpu.current))
    ensures Unchanged(s, r, t)
  {
    hide Core, PlaceOnUnordered, PlaceOnEventList, Delay, WakeHead, WakeUnordered, CreateList, ResetItemValue;
    WaitersKnown(r, l);
    if t in s.ev.waiting[l] { WaitersKnown(s, l); } else { CurrentParts(s); TaskKnown(s, t); }
    WaitStepSame(s, op, r);
    WaitStepValues(s, op, r, t);
    if op.WaitForBits? || op.ResetValue? { ReadyWaitsNowhere(s, s.cpu.current); }
    if op.WakeWaiter? && op.t == t { WakeUnorderedLeaves(s, t, op.value); }
  }

  lemma GiveMutexUnchanged(s: K, m: MutexId, t: TaskId)
    requires Inv(s) && m in s.own.mutexes && s.own.mutexes[m].holder == Task(s.cpu.current) && m in s.ev.waiting
    requires t in s.prio && t in s.ev.value && t != s.cpu.current
    ensures Unchanged(s, GiveMutex(s, m), t)
  {
    hide Core, GiveBack, WakeHead;
    GiveBackKeeps(s, m);
    GiveBackFrame(s, m);
    GiveBackPrio(s, m);
    GiveMutexValues(s, m);
    var r := GiveBack(s, m);
    if r.ev.waiting[m] != [] { WakeHeadSame(r, m); }
  }

  lemma InheritUnchanged(s: K, h: TaskId, t: TaskId)
    requires Inv(s) && h in s.prio && IsReady(s.lists, s.cpu.current) && t in s.prio && t in s.ev.value && t != h
    ensures Unchanged(s, Inherit(s, h), t)
  {
    hide Inv, MoveLists, Placed, Consistent, ListsOk, EventsOk, Owned, Configured;
    InvParts(s);
    TaskKnown(s, h);
    InheritFrame(s, h);
  }

  lemma PlaceUnchanged(s: K, m: ListId, ticks: nat, t: TaskId)
    requires Inv(s) && IsReady(s.lists, s.cpu.current) && m in s.ev.waiting && t in s.prio && t in s.ev.value
    ensures Unchanged(s, PlaceOnEventList(s, m, ticks), t)
  {
    hide Inv, BlockLists, SortedInsert, Placed, Consistent, ListsOk, EventsOk, Owned, Configured;
    InvParts(s);
  }

  lemma BlockOnUnchanged(s: K, m: MutexId, ticks: nat, t: TaskId)
    requires Inv(s) && IsReady(s.lists, s.cpu.current) && m in s.own.mutexes && s.own.mutexes[m].messages == 0 && m in s.ev.waiting
    requires t in s.prio && t in s.ev.value && s.own.mutexes[m].holder != Task(t)
    ensures Unchanged(s, BlockOnMutex(s, m, ticks), t)
  {
    hide Inv, Inherit, PlaceOnEventList;
    HeldMutex(s, m);
    var h := s.own.mutexes[m].holder.id;
    InheritKeeps(s, h);
    InheritFrame(s, h);
    InheritUnchanged(s, h, t);
    PlaceUnchanged(Inherit(s, h), m, ticks, t);
  }

  lemma MutexStepUnchanged(s: K, op: MutexOp, r: K, t: TaskId)
    requires Inv(s) && MutexStep(s, op, r) && t in s.prio && t in s.ev.value
    requires op.BlockOn? || op.NewMutex? || t != s.cpu.current
    requires op.BlockOn? && op.m in s.own.mutexes ==> s.own.mutexes[op.m].holder != Task(t)
    ensures Unchanged(s, r, t)
  {
    hide Inv, GiveMutex, BlockOnMutex, Take;
    match op
    case BlockOn(m, ticks) => BlockOnUnchanged(s, m, ticks, t);
    case Give(m) => if s.own.mutexes[m].messages != 1 { GiveMutexUnchanged(s, m, t); }
    case GiveAgain(m) =>
      if s.own.mutexes[m].holder == Task(s.cpu.current) && s.own.mutexes[m].count <= 1 { GiveMutexUnchanged(s, m, t); }
    case _ =>
  }

  /** The list after a wait on a mutex, in terms of item values that the wait has left alone. */
  lemma BlockOnLists(s: K, m: MutexId, ticks: nat, l: ListId)
    requires Inv(s) && IsReady(s.lists, s.cpu.current) && m in s.own.mutexes && s.own.mutexes[m].messages == 0
    requires m in s.ev.waiting && l in s.ev.waiting
    ensures s.own.mutexes[m].holder.Task? && s.own.mutexes[m].holder.id in s.prio
    ensures var i, r := Inherit(s, s.own.mutexes[m].holder.id), BlockOnMutex(s, m, ticks);
      && i.ev.waiting == s.ev.waiting && i.cpu.current == s.cpu.current && i.cfg == s.cfg && Inv(i)
      && if m == l then Joins(i, r, l) else ThinsAt(i, r, l)
  {
    hide Inv, Inherit, PlaceOnEventList, Joins, ThinsAt;
    HeldMutex(s, m);
    var h := s.own.mutexes[m].holder.id;
    InheritKeeps(s, h);
    InheritFrame(s, h);
    PlaceLists(Inherit(s, h), m, ticks, l);
  }

  // ------------------------------------------------------------------ every step keeps the order

  lemma StillRanked(w: seq<TaskId>, key: map<TaskId, nat>, key': map<TaskId, nat>)
    requires Ranked(w, key) && forall t :: t in w ==> t in key' && key'[t] == key[t]
    ensures Ranked(w, key')
  {
  }

  lemma StillByPriority(s: K, r: K, l: ListId)
    requires ByPriority(s, l) && ThinsAt(s, r, l) && r.cfg == s.cfg
    requires forall t :: t in r.ev.waiting[l] ==> Unchanged(s, r, t)
    ensures ByPriority(r, l)
  {
    hide Ranked;
    StillRanked(r.ev.waiting[l], s.ev.value, r.ev.value);
  }

  lemma JoinedByPriority(s: K, r: K, l: ListId)
    requires ByPriority(s, l) && Joins(s, r, l) && Normal(s, s.cpu.current) && r.cfg == s.cfg
    requires forall t :: t in r.ev.waiting[l] ==> Unchanged(s, r, t)
    ensures ByPriority(r, l)
  {
    hide SortedInsert;
    SortedInsertSorts(s.ev.waiting[l], s.ev.value, s.cpu.current);
    StillRanked(r.ev.waiting[l], s.ev.value, r.ev.value);
  }

  /** Another state with the same list, whose members have the same priorities and item values. */
  lemma CarriedOver(s: K, i: K, l: ListId)
    requires ByPriority(s, l) && i.ev.waiting == s.ev.waiting && i.cfg == s.cfg
    requires forall t :: t in s.ev.waiting[l] ==> Unchanged(s, i, t)
    ensures ByPriority(i, l)
  {
    hide Ranked;
    StillRanked(s.ev.waiting[l], s.ev.value, i.ev.value);
  }

  lemma ClockByPriority(s: K, op: ClockOp, r: K, l: ListId)
    requires Inv(s) && ClockStep(s, op, r) && ByPriority(s, l)
    ensures ByPriority(r, l)
  {
    hide Inv, ClockStep, Thins, AllThin, Ranked;
    ClockStepThins(s, op, r);
    ClockStepPriorities(s, op, r);
    ThinAt(s, r, l);
    ThinMembers(s, r, l);
    StillByPriority(s, r, l);
  }

  lemma ThinMembers(s: K, r: K, l: ListId)
    requires ThinsAt(s, r, l)
    ensures l in r.ev.waiting && l in s.ev.waiting && forall t :: t in r.ev.waiting[l] ==> t in s.ev.waiting[l]
  {
  }

  lemma TaskByPriority(s: K, op: TaskOp, r: K, l: ListId)
    requires Inv(s) && TaskStep(s, op, r) && ByPriority(s, l) && LeavesOrder(s, OnTask(op), l)
    ensures ByPriority(r, l)
  {
    hide Inv, TaskStep, Thins, AllThin, Ranked;
    TaskKeeps(s, op, r);
    TaskStepThins(s, op, r);
    TaskStepMutexes(s, op, r);
    ThinAt(s, r, l);
    ThinMembers(s, r, l);
    WaitersKnown(s, l);
    WaitersKnown(r, l);
    forall t | t in r.ev.waiting[l] ensures Unchanged(s, r, t) {
      TaskStepUnchanged(s, op, r, t);
    }
    StillByPriority(s, r, l);
  }

  lemma WaitByPriority(s: K, op: WaitOp, r: K, l: ListId)
    requires Inv(s) && WaitStep(s, op, r) && ByPriority(s, l) && LeavesOrder(s, OnWait(op), l)
    ensures ByPriority(r, l)
  {
    hide Inv, WaitStep, Thins, AllThin, Ranked, ThinsAt, Joins;
    WaitKeeps(s, op, r);
    WaitStepLists(s, op, r, l);
    WaitStepSame(s, op, r);
    if op.WaitOn? && op.l == l { JoinMembers(s, r, l); } else { ThinMembers(s, r, l); }
    forall t | t in r.ev.waiting[l] ensures Unchanged(s, r, t) {
      WaitStepUnchanged(s, op, r, l, t);
    }
    if op.WaitOn? && op.l == l { JoinedByPriority(s, r, l); } else { StillByPriority(s, r, l); }
  }

  lemma JoinMembers(s: K, r: K, l: ListId)
    requires Joins(s, r, l)
    ensures l in r.ev.waiting && forall t :: t in r.ev.waiting[l] ==> t == s.cpu.current || t in s.ev.waiting[l]
  {
  }

  lemma MutexByPriority(s: K, op: MutexOp, r: K, l: ListId)
    requires Inv(s) && MutexStep(s, op, r) && ByPriority(s, l) && LeavesOrder(s, OnMutex(op), l) && !op.BlockOn?
    ensures ByPriority(r, l)
  {
    hide Inv, MutexStep, Thins, AllThin, Ranked;
    MutexStepThins(s, op, r);
    MutexStepFloors(s, op, r);
    ThinAt(s, r, l);
    ThinMembers(s, r, l);
    WaitersKnown(s, l);
    forall t | t in r.ev.waiting[l] ensures Unchanged(s, r, t) {
      NotRunning(s, op, r, t);
      MutexStepUnchanged(s, op, r, t);
    }
    StillByPriority(s, r, l);
  }

  lemma NotRunning(s: K, op: MutexOp, r: K, t: TaskId)
    requires Inv(s) && MutexStep(s, op, r) && Blocked(s.lists, t)
    ensures op.NewMutex? || t != s.cpu.current
  {
    hide Core, CreateMutex, TakeMutex, BlockOnMutex, GiveMutex, TakeRecursive, GiveRecursive;
  }

  lemma BlockOnByPriority(s: K, m: MutexId, ticks: nat, l: ListId)
    requires Inv(s) && IsReady(s.lists, s.cpu.current) && m in s.own.mutexes && s.own.mutexes[m].messages == 0
    requires m in s.ev.waiting && ByPriority(s, l) && LeavesOrder(s, OnMutex(BlockOn(m, ticks)), l)
    ensures ByPriority(BlockOnMutex(s, m, ticks), l)
  {
    hide Inv, Inherit, BlockOnMutex, Thins, Ranked, ThinsAt, Joins;
    BlockOnLists(s, m, ticks, l);
    var h := s.own.mutexes[m].holder.id;
    var i, r := Inherit(s, h), BlockOnMutex(s, m, ticks);
    WaitersKnown(s, l);
    CurrentParts(s);
    TaskKnown(s, s.cpu.current);
    forall t | t in s.ev.waiting[l] || t == s.cpu.current ensures Unchanged(s, i, t) && Unchanged(s, r, t) {
      InheritUnchanged(s, h, t);
      BlockOnUnchanged(s, m, ticks, t);
    }
    CarriedOver(s, i, l);
    BlockOnMutexConfig(s, m, ticks);
    if m == l {
      JoinMembers(i, r, l);
      JoinedByPriority(i, r, l);
    } else {
      ThinMembers(i, r, l);
      StillByPriority(i, r, l);
    }
  }

  lemma BlockOnMutexConfig(s: K, m: MutexId, ticks: nat)
    requires Inv(s) && IsReady(s.lists, s.cpu.current) && m in s.own.mutexes && s.own.mutexes[m].messages == 0 && m in s.ev.waiting
    ensures BlockOnMutex(s, m, ticks).cfg == s.cfg
  {
    hide Core, BlockOnMutex;
    BlockOnMutexFloors(s, m, ticks);
  }

  /** Every step that leaves the waiters' priorities alone keeps the list in priority order. */
  lemma StepByPriority(s: K, op: Op, r: K, l: ListId)
    requires Inv(s) && Next(s, op, r) && ByPriority(s, l) && Valued(s) && Leaves(s, op, l)
    ensures ByPriority(r, l)
  {
    hide Core, ClockStep, TaskStep, WaitStep, ByPriority, Leaves, LeavesOrder, Valued, BlockOnMutex, GiveMutex;
    LeavesInOrder(s, op, l);
    match op
    case OnClock(c) => ClockByPriority(s, c, r, l);
    case OnTask(k) => TaskByPriority(s, k, r, l);
    case OnWait(w) => WaitByPriority(s, w, r, l);
    case OnMutex(x) => if x.BlockOn? { BlockOnByPriority(s, x.m, x.ticks, l); } else { MutexByPriority(s, x, r, l); }
  }

  lemma NewListByPriority(s: K, l: ListId)
    requires l in s.ev.waiting && s.ev.waiting[l] == []
    ensures ByPriority(s, l)
  {
  }

  /**
   Over every run that leaves the waiters' priorities alone, a waiting list stays in priority order from when it is
   empty on: whoever is woken from it has the highest priority of all that wait there.
   */
  lemma {:induction false} StaysByPriority(states: seq<K>, ops: seq<Op>, l: ListId, n: nat)
    requires IsRun(states, ops) && Inv(states[0]) && l in states[0].ev.waiting && states[0].ev.waiting[l] == [] && n < |states|
    requires Valued(states[0]) && forall i :: 0 <= i < n ==> ValueSafe(states[i], ops[i]) && Leaves(states[i], ops[i], l)
    ensures ByPriority(states[n], l)
  {
    hide Inv, Next, ByPriority, Leaves, Valued, ValueSafe;
    if n == 0 {
      NewListByPriority(states[0], l);
    } else {
      StaysByPriority(states, ops, l, n - 1);
      ValuesFollowPriorities(states, ops, n - 1);
      RunKeeps(states, ops, n - 1);
      assert Step(states[n - 1], ops[n - 1], states[n]);
      StepByPriority(states[n - 1], ops[n - 1], states[n], l);
    }
  }
}

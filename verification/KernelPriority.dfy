/**
 Theorems about priorities: inheritance lasts while a mutex is held, recursive mutexes balance, event
 group conditions survive priority changes, and tasks of equal priority take turns.
 */
module KernelPriority {
  import opened Sequences
  import opened StateLists
  import opened EventItems
  import opened Ownership
  import opened KernelSpec
  import opened KernelOps
  import opened KernelOwnership
  import opened KernelMutex
  import opened KernelRuns
  import opened KernelTicks

  // ------------------------------------------------------------------ what each step does to priorities

  ghost predicate SamePriorities(s: K, r: K) {
    r.cfg == s.cfg && r.prio == s.prio && r.own == s.own && r.ev.value == s.ev.value
  }

  lemma ClockStepPriorities(s: K, op: ClockOp, r: K)
    requires Inv(s) && ClockStep(s, op, r)
    ensures SamePriorities(s, r)
  {
    hide Core, TickNow, ResumeAll;
    match op
    case TickInterrupt => if s.clock.depth == 0 { TickNowExact(s); }
    case SuspendAll =>
    case EnableAll => ResumePriorities(s);
    case Switch =>
  }

  lemma ResumePriorities(s: K)
    requires Inv(s) && s.clock.depth > 0
    ensures SamePriorities(s, ResumeAll(s))
  {
    hide Core, DrainPending, Replay;
    var d := s.(clock := s.clock.(depth := s.clock.depth - 1));
    if d.clock.depth == 0 {
      DrainKeepsCore(s);
      DrainPendingKeeps(d);
      ReplayKeeps(DrainPending(d), s.clock.pended);
    }
  }

  /** Task `t` has the same priorities and holds the same mutexes, and a value in use stays as it is. */
  ghost predicate SameTask(s: K, r: K, t: TaskId) {
    && t in s.prio && t in s.own.base && t in s.own.held && t in s.ev.value
    && t in r.prio && t in r.own.base && t in r.own.held && t in r.ev.value
    && r.prio[t] == s.prio[t] && r.own.base[t] == s.own.base[t] && r.own.held[t] == s.own.held[t]
  }

  /** `t` is a task with a record in every table. */
  ghost predicate Known(s: K, t: TaskId) {
    t in s.prio && t in s.own.base && t in s.own.held && t in s.ev.value && t in s.ev.at && t in s.lists.at
  }

  lemma TaskIsKnown(s: K, t: TaskId)
    requires Inv(s) && t in s.prio
    ensures Known(s, t)
  {
    hide ListsOk, Placed;
    CoreParts(s, s.clock.now + 1);
    TaskKnown(s, t);
  }

  /** An event group waiter's item value: its condition, marked in use, until it leaves the list. */
  ghost predicate Condition(s: K, t: TaskId, v: nat) {
    t in s.ev.at && s.ev.at[t].On? && t in s.ev.value && s.ev.value[t] == v && v >= s.cfg.inUse
  }

  predicate Reprices(op: TaskOp, t: TaskId) {
    op.SetTaskPriority? && op.t == t
  }

  lemma TaskStepMutexes(s: K, op: TaskOp, r: K)
    requires Inv(s) && TaskStep(s, op, r)
    ensures r.cfg == s.cfg && r.own.mutexes == s.own.mutexes
  {
    hide Core, CreateLists, SuspendLists, ToReady, TerminateLists, ForgetLists, ForgetEvents, MoveLists, SetFreeValue;
  }

  lemma TaskStepSame(s: K, op: TaskOp, r: K, t: TaskId)
    requires Inv(s) && TaskStep(s, op, r) && t in s.prio && t in s.own.held && (s.own.held[t] > 0 || t in r.prio)
    ensures t in r.prio && Known(r, t) && r.own.held[t] == s.own.held[t]
    ensures !Reprices(op, t) ==> SameTask(s, r, t)
  {
    hide Inv, CreateLists, SuspendLists, ToReady, TerminateLists, ForgetLists, ForgetEvents, MoveLists, SetFreeValue,
      EventItems.Remove, Defer, Consistent, Placed, ListsOk, EventsOk, Owned, Configured;
    TaskIsKnown(s, t);
    TaskKeeps(s, op, r);
    InvParts(s);
    match op {
      case DeleteTask(u) => if u != s.cpu.current { DeletableOther(s, u); }
      case IdleCleanUp => CleanUpFirst(s);
      case SetTaskPriority(u, p) => TaskKnown(s, u);
      case _ =>
    }
    TaskIsKnown(r, t);
  }

  /** A task call changes the item value of no task but the one whose priority it sets, and of that only a free one. */
  lemma TaskStepValues(s: K, op: TaskOp, r: K, t: TaskId)
    requires Inv(s) && TaskStep(s, op, r) && t in s.prio && t in s.ev.value && t in r.ev.value
    ensures r.ev.value[t] == s.ev.value[t] || (Reprices(op, t) && s.ev.value[t] < s.cfg.inUse)
  {
    hide Inv, CreateLists, SuspendLists, ToReady, TerminateLists, ForgetLists, MoveLists, EventItems.Remove, Defer,
      Consistent, Placed, ListsOk, EventsOk, Owned, Configured;
    InvParts(s);
    match op
    case CreateTask(u, p) =>
    case DeleteTask(u) => RemoveConsistent(s.ev, u);
      if u != s.cpu.current { DeletableOther(s, u); }
    case IdleCleanUp => CleanUpFirst(s);
      RemoveConsistent(s.ev, s.lists.termination[0]);
    case SuspendTask(u) => RemoveConsistent(s.ev, u);
    case ResumeTask(u) => if IsSuspended(s, u) { RemoveConsistent(s.ev, u); }
    case ResumeTaskFromISR(u) => if IsSuspended(s, u) { RemoveConsistent(s.ev, u); DeferConsistent(s.ev, u); }
    case SetTaskPriority(u, p) => TaskKnown(s, u);
  }

  lemma TaskStepCondition(s: K, op: TaskOp, r: K, t: TaskId, v: nat)
    requires Inv(s) && TaskStep(s, op, r) && Condition(s, t, v) && t in r.ev.at && r.ev.at[t] == s.ev.at[t]
    ensures Condition(r, t, v)
  {
    hide Core, TaskStep, Consistent, Placed, ListsOk, EventsOk, Owned;
    TaskStepMutexes(s, op, r);
    TaskKeeps(s, op, r);
    CoreParts(s, s.clock.now + 1);
    CoreParts(r, r.clock.now + 1);
    TaskKnown(r, t);
    TaskStepValues(s, op, r, t);
  }

  lemma WaitStepSame(s: K, op: WaitOp, r: K)
    requires Inv(s) && WaitStep(s, op, r)
    ensures r.cfg == s.cfg && r.prio == s.prio && r.own == s.own
  {
    hide Core, ToReady, BlockLists, SortedInsert;
  }

  lemma WakeHeadSame(s: K, l: ListId)
    requires Inv(s) && l in s.ev.waiting && s.ev.waiting[l] != []
    ensures SamePriorities(s, WakeHead(s, l))
  {
    hide Core, ListsOk, EventsOk, Owned, Placed, Consistent, Configured, ToReady, EventItems.Remove, Defer;
    var t := s.ev.waiting[l][0];
    WaiterKnown(s, l, t, s.clock.now + 1);
    CoreParts(s, s.clock.now + 1);
    RemoveConsistent(s.ev, t);
    DeferConsistent(s.ev, t);
  }

  /** Waiting and waking change the item value of no task but the one that starts to wait or is woken. */
  lemma WaitStepValues(s: K, op: WaitOp, r: K, t: TaskId)
    requires Inv(s) && WaitStep(s, op, r) && t in s.ev.value
    ensures t in r.ev.value
    ensures r.ev.value[t] == s.ev.value[t] || ((op.WaitForBits? || op.ResetValue?) && t == s.cpu.current) || (op.WakeWaiter? && op.t == t)
  {
    hide Inv, WakeHead, WakeUnordered, BlockLists, SortedInsert, Consistent, Placed, ListsOk, EventsOk, Owned, Configured;
    InvParts(s);
    match op
    case WakeFrom(l) => WakeHeadSame(s, l);
    case WakeWaiter(u, v) => WakeUnorderedValues(s, u, v);
    case _ =>
  }

  lemma WakeUnorderedValues(s: K, u: TaskId, v: nat)
    requires Inv(s) && u in s.ev.at && s.ev.at[u].On?
    ensures WakeUnordered(s, u, v).ev.value == s.ev.value[u := v + s.cfg.inUse]
  {
    hide Inv, ToReady, EventItems.Remove, ListsOk, EventsOk, Owned, Placed, Consistent, Configured;
    InvParts(s);
    WaiterBlocked(s, u);
    SetValueConsistent(s.ev, u, v + s.cfg.inUse);
    RemoveConsistent(s.ev.(value := s.ev.value[u := v + s.cfg.inUse]), u);
  }

  lemma WaitStepCondition(s: K, op: WaitOp, r: K, t: TaskId, v: nat)
    requires Inv(s) && WaitStep(s, op, r) && Condition(s, t, v) && t in r.ev.at && r.ev.at[t] == s.ev.at[t]
    ensures Condition(r, t, v)
  {
    hide Core, PlaceOnUnordered, PlaceOnEventList, Delay, WakeHead, WakeUnordered, CreateList;
    WaitStepSame(s, op, r);
    WaitStepValues(s, op, r, t);
    if op.WaitForBits? || op.ResetValue? { ReadyWaitsNowhere(s, s.cpu.current); }
    if op.WakeWaiter? && op.t == t { WakeUnorderedLeaves(s, t, op.value); }
  }

  lemma WakeUnorderedLeaves(s: K, t: TaskId, value: nat)
    requires Inv(s) && t in s.ev.at && s.ev.at[t].On?
    ensures t in WakeUnordered(s, t, value).ev.at && WakeUnordered(s, t, value).ev.at[t] == Nowhere
  {
    hide Inv, ToReady, ListsOk, EventsOk, Owned, Placed, Consistent;
    InvParts(s);
    WaiterBlocked(s, t);
    SetValueConsistent(s.ev, t, value + s.cfg.inUse);
  }

  /** Giving and taking: nobody's own priority changes, and nobody who still holds a mutex loses priority. */
  ghost predicate KeepsFloors(s: K, r: K) {
    r.cfg == s.cfg && Floors(s.own, s.prio, r.own, r.prio)
  }

  ghost predicate Floors(o: Own, prio: map<TaskId, nat>, o': Own, prio': map<TaskId, nat>) {
    && o'.base == o.base && prio'.Keys == prio.Keys && o'.held.Keys == o.held.Keys == prio.Keys == o.base.Keys
    && (forall t :: t in prio && o'.held[t] > 0 ==> prio[t] <= prio'[t])
    && (forall t :: t in prio ==> prio'[t] >= prio[t] || prio'[t] == o.base[t])
  }

  lemma ReleaseFloors(o: Own, prio: map<TaskId, nat>, t: TaskId, m: MutexId)
    requires o.held.Keys == prio.Keys == o.base.Keys && t in prio && o.held[t] > 0 && m in o.mutexes
    ensures Floors(o, prio, Release(o, t, m), if o.held[t] == 1 then prio[t := o.base[t]] else prio)
  {
  }

  lemma InheritFloors(s: K, h: TaskId)
    requires Inv(s) && h in s.prio && IsReady(s.lists, s.cpu.current)
    ensures KeepsFloors(s, Inherit(s, h))
  {
    hide Inv, ListsOk, EventsOk, Owned, Placed, Consistent, Configured, Inherit;
    InvParts(s);
    OwnedParts(s.own, s.prio, s.cpu.idle, s.cfg.P);
    InheritFrame(s, h);
  }

  /** The giver falls back to its base priority with its last mutex; nobody else changes. */
  lemma GiveBackPrio(s: K, m: MutexId)
    requires Inv(s) && m in s.own.mutexes && s.own.mutexes[m].holder == Task(s.cpu.current)
    ensures var t := s.cpu.current;
      && t in s.prio && t in s.own.base && t in s.own.held
      && GiveBack(s, m).prio == if s.own.held[t] == 1 then s.prio[t := s.own.base[t]] else s.prio
  {
    hide Core, ListsOk, EventsOk, Owned, Placed, Consistent, Configured, MoveLists;
    HolderFacts(s, m);
    var t := s.cpu.current;
    assert s.prio[t := s.prio[t]] == s.prio;
  }

  lemma GiveBackFloors(s: K, m: MutexId)
    requires Inv(s) && m in s.own.mutexes && s.own.mutexes[m].holder == Task(s.cpu.current)
    ensures KeepsFloors(s, GiveBack(s, m))
  {
    hide Inv, ListsOk, EventsOk, Owned, Placed, Consistent, Configured, GiveBack, Floors, Release;
    InvParts(s);
    OwnedParts(s.own, s.prio, s.cpu.idle, s.cfg.P);
    GiveBackFrame(s, m);
    GiveBackPrio(s, m);
    ReleaseFloors(s.own, s.prio, s.cpu.current, m);
  }

  lemma GiveMutexFloors(s: K, m: MutexId)
    requires Inv(s) && m in s.own.mutexes && s.own.mutexes[m].holder == Task(s.cpu.current) && m in s.ev.waiting
    ensures KeepsFloors(s, GiveMutex(s, m))
    ensures GiveMutex(s, m).own.mutexes == s.own.mutexes[m := s.own.mutexes[m].(messages := 1, holder := Nobody, count := 0)]
  {
    hide Inv, GiveBack, WakeHead;
    GiveBackKeeps(s, m);
    GiveBackFrame(s, m);
    GiveBackFloors(s, m);
    var r := GiveBack(s, m);
    if r.ev.waiting[m] != [] { WakeHeadSame(r, m); }
  }

  lemma BlockOnMutexFloors(s: K, m: MutexId, ticks: nat)
    requires Inv(s) && IsReady(s.lists, s.cpu.current) && m in s.own.mutexes && s.own.mutexes[m].messages == 0
    requires m in s.ev.waiting
    ensures KeepsFloors(s, BlockOnMutex(s, m, ticks))
    ensures BlockOnMutex(s, m, ticks).own == s.own && s.own.mutexes[m].holder.Task?
    ensures var h := s.own.mutexes[m].holder.id;
      h in s.own.held && s.own.held[h] > 0 && h in BlockOnMutex(s, m, ticks).prio
      && s.prio[s.cpu.current] <= BlockOnMutex(s, m, ticks).prio[h]
  {
    hide Inv, Inherit, BlockLists, InsertSorted;
    HeldMutex(s, m);
    var h := s.own.mutexes[m].holder.id;
    InheritKeeps(s, h);
    InheritFrame(s, h);
    InheritFloors(s, h);
  }

  /** A task that blocks on a held mutex lends its priority to the holder, no more and no less, and changes nobody else's. */
  lemma BlockingInherits(s: K, m: MutexId, ticks: nat)
    requires Inv(s) && IsReady(s.lists, s.cpu.current) && m in s.own.mutexes && s.own.mutexes[m].messages == 0
    requires m in s.ev.waiting
    ensures s.own.mutexes[m].holder.Task? && s.own.mutexes[m].holder.id in s.prio && s.cpu.current in s.prio
    ensures var h := s.own.mutexes[m].holder.id;
      BlockOnMutex(s, m, ticks).prio == s.prio[h := Highest(s.prio[h], s.prio[s.cpu.current])]
  {
    hide Inv, Inherit, BlockLists, InsertSorted;
    HeldMutex(s, m);
    CurrentParts(s);
    var h := s.own.mutexes[m].holder.id;
    InheritKeeps(s, h);
    InheritFrame(s, h);
  }

  /** Giving takes an inherited priority back with the last mutex, and changes nobody else's priority. */
  lemma GivingReturns(s: K, m: MutexId)
    requires Inv(s) && m in s.own.mutexes && s.own.mutexes[m].holder == Task(s.cpu.current) && m in s.ev.waiting
    ensures var t := s.cpu.current;
      && t in s.prio && t in s.own.base && t in s.own.held
      && GiveMutex(s, m).prio == if s.own.held[t] == 1 then s.prio[t := s.own.base[t]] else s.prio
  {
    hide Inv, GiveBack, WakeHead;
    GiveBackKeeps(s, m);
    GiveBackFrame(s, m);
    GiveBackPrio(s, m);
    var r := GiveBack(s, m);
    if r.ev.waiting[m] != [] { WakeHeadSame(r, m); }
  }

  /** Mutex `x` after a call by task `me` on mutex `k`: taken when free, given by its holder, or counted. */
  function Moved(x: Mutex, me: TaskId, op: MutexOp, m: MutexId): Mutex {
    match op
    case TakeFree(k) => if k == m then x.(messages := 0, holder := Task(me)) else x
    case Give(k) => if k == m && x.holder == Task(me) then x.(messages := 1, holder := Nobody, count := 0) else x
    case TakeAgain(k) =>
      if k != m then x else if x.holder == Task(me) then x.(count := x.count + 1)
      else x.(messages := 0, holder := Task(me), count := 1)
    case GiveAgain(k) =>
      if k != m || x.holder != Task(me) then x else if x.count > 1 then x.(count := x.count - 1)
      else x.(messages := 1, holder := Nobody, count := 0)
    case _ => x
  }

  ghost predicate MutexMove(s: K, op: Op, r: K, m: MutexId) {
    && m in s.own.mutexes && m in r.own.mutexes
    && r.own.mutexes[m] == (if op.OnMutex? then Moved(s.own.mutexes[m], s.cpu.current, op.x, m) else s.own.mutexes[m])
    && (op == OnMutex(TakeFree(m)) ==> s.own.mutexes[m].holder == Nobody)
    && (op == OnMutex(TakeAgain(m)) ==> s.own.mutexes[m].holder in {Nobody, Task(s.cpu.current)})
  }

  lemma MutexFacts(s: K, m: MutexId)
    requires Inv(s) && m in s.own.mutexes
    ensures var x := s.own.mutexes[m];
      && x.messages <= 1 && (x.messages == 1 <==> x.holder == Nobody)
      && (x.recursive ==> (x.count == 0 <==> x.holder == Nobody))
  {
  }

  lemma MutexStepMoves(s: K, op: MutexOp, r: K, m: MutexId)
    requires Inv(s) && MutexStep(s, op, r) && m in s.own.mutexes
    ensures MutexMove(s, OnMutex(op), r, m)
  {
    hide Inv, GiveMutex, BlockOnMutex;
    MutexFacts(s, m);
    match op
    case NewMutex(_, _) =>
    case TakeFree(k) =>
    case BlockOn(k, ticks) => BlockOnMutexFloors(s, k, ticks);
    case Give(k) =>
      MutexFacts(s, k);
      if s.own.mutexes[k].messages != 1 { GiveMutexFloors(s, k); }
    case TakeAgain(k) =>
    case GiveAgain(k) =>
      if s.own.mutexes[k].holder == Task(s.cpu.current) && s.own.mutexes[k].count <= 1 { GiveMutexFloors(s, k); }
  }

  /** Mutual exclusion: a mutex passes from one holder to another only by being given and then taken. */
  lemma StepMovesMutex(s: K, op: Op, r: K, m: MutexId)
    requires Inv(s) && Next(s, op, r) && m in s.own.mutexes
    ensures MutexMove(s, op, r, m)
    ensures s.own.mutexes[m].holder.Task? && r.own.mutexes[m].holder != s.own.mutexes[m].holder ==>
      r.own.mutexes[m].holder == Nobody && s.own.mutexes[m].holder == Task(s.cpu.current)
  {
    hide Core, ClockStep, TaskStep, WaitStep, MutexStep;
    match op
    case OnClock(c) => ClockStepPriorities(s, c, r);
    case OnTask(k) => TaskStepMutexes(s, k, r);
    case OnWait(w) => WaitStepSame(s, w, r);
    case OnMutex(x) => MutexStepMoves(s, x, r, m);
  }

  lemma SameFloors(o: Own, prio: map<TaskId, nat>, o': Own)
    requires o'.base == o.base && o'.held.Keys == o.held.Keys == prio.Keys == o.base.Keys
    ensures Floors(o, prio, o', prio)
  {
  }

  lemma MutexStepFloors(s: K, op: MutexOp, r: K)
    requires Inv(s) && MutexStep(s, op, r)
    ensures KeepsFloors(s, r)
  {
    hide Inv, GiveMutex, BlockOnMutex, ListsOk, EventsOk, Owned, Placed, Consistent, Configured, HeldBy, Floors;
    InvParts(s);
    OwnedParts(s.own, s.prio, s.cpu.idle, s.cfg.P);
    if r.prio == s.prio && r.own.base == s.own.base && r.own.held.Keys == s.own.held.Keys {
      SameFloors(s.own, s.prio, r.own);
    }
    match op
    case NewMutex(_, _) =>
    case TakeFree(k) =>
    case BlockOn(k, ticks) => BlockOnMutexFloors(s, k, ticks);
    case Give(k) => if s.own.mutexes[k].messages != 1 { GiveMutexFloors(s, k); }
    case TakeAgain(k) =>
    case GiveAgain(k) =>
      if s.own.mutexes[k].holder == Task(s.cpu.current) && s.own.mutexes[k].count <= 1 { GiveMutexFloors(s, k); }
  }

  // ------------------------------------------------------------------ priority inheritance over runs

  /** `h` holds a mutex and runs at priority `p` or above. */
  ghost predicate Boosted(s: K, h: TaskId, p: nat) {
    h in s.prio && h in s.own.held && s.own.held[h] > 0 && p <= s.prio[h]
  }

  predicate StillHolds(s: K, h: TaskId) {
    h in s.own.held && s.own.held[h] > 0
  }

  lemma StepKeepsBoost(s: K, op: Op, r: K, h: TaskId, p: nat)
    requires Inv(s) && Next(s, op, r) && Boosted(s, h, p)
    requires !(op.OnTask? && Reprices(op.k, h)) && StillHolds(r, h)
    ensures Boosted(r, h, p)
  {
    hide Core, ClockStep, TaskStep, WaitStep, MutexStep;
    match op
    case OnClock(c) => ClockStepPriorities(s, c, r);
    case OnTask(k) => TaskStepSame(s, k, r, h);
    case OnWait(w) => WaitStepSame(s, w, r);
    case OnMutex(x) => MutexStepFloors(s, x, r);
  }

  /**
   From the moment a task blocks on a held mutex until the holder has given back its last mutex, the
   holder's priority is at least the one the waiter had when it blocked.
   */
  lemma {:induction false} InheritanceHolds(states: seq<K>, ops: seq<Op>, m: MutexId, ticks: nat, n: nat)
    requires IsRun(states, ops) && Inv(states[0]) && 0 < n < |states| && ops[0] == OnMutex(BlockOn(m, ticks))
    requires m in states[0].own.mutexes && states[0].own.mutexes[m].holder.Task?
    requires forall i :: 0 < i <= n ==> StillHolds(states[i], states[0].own.mutexes[m].holder.id)
    requires forall i :: 0 < i < n ==> !(ops[i].OnTask? && Reprices(ops[i].k, states[0].own.mutexes[m].holder.id))
    requires states[0].cpu.current in states[0].prio
    ensures Boosted(states[n], states[0].own.mutexes[m].holder.id, states[0].prio[states[0].cpu.current])
  {
    hide Inv, Next, Boosted, StillHolds;
    var h := states[0].own.mutexes[m].holder.id;
    if n == 1 {
      assert Step(states[0], ops[0], states[1]);
      BlockingBoosts(states[0], m, ticks, states[1]);
    } else {
      InheritanceHolds(states, ops, m, ticks, n - 1);
      RunKeeps(states, ops, n - 1);
      assert Step(states[n - 1], ops[n - 1], states[n]);
      StepKeepsBoost(states[n - 1], ops[n - 1], states[n], h, states[0].prio[states[0].cpu.current]);
    }
  }

  lemma BlockingBoosts(s: K, m: MutexId, ticks: nat, r: K)
    requires Inv(s) && Next(s, OnMutex(BlockOn(m, ticks)), r)
    ensures m in s.own.mutexes && s.own.mutexes[m].holder.Task? && s.cpu.current in s.prio
    ensures Boosted(r, s.own.mutexes[m].holder.id, s.prio[s.cpu.current])
  {
    hide Inv, BlockOnMutex, ClockStep, TaskStep, WaitStep, ListsOk, EventsOk, Owned, Placed, Consistent, Configured;
    InvParts(s);
    BlockOnMutexFloors(s, m, ticks);
  }

  // ------------------------------------------------------------------ priorities never fall below base

  ghost predicate AboveBase(s: K) {
    forall t :: t in s.prio && t in s.own.base ==> s.own.base[t] <= s.prio[t]
  }

  /** A new base priority is not above what the task inherits, or it inherits nothing. */
  predicate SafeReprice(s: K, op: Op) {
    op.OnTask? && op.k.SetTaskPriority? ==>
      var t := op.k.t;
      t in s.prio && t in s.own.base && (s.prio[t] == s.own.base[t] || op.k.p <= s.prio[t])
  }

  /** `vTaskPrioritySet` keeps a task at or above its base priority exactly when it is safe in this sense. */
  lemma RepriceAboveBase(s: K, t: TaskId, p: nat)
    requires Inv(s) && t in s.prio && p < s.cfg.P && t in s.own.base && s.own.base[t] <= s.prio[t]
    ensures t in PrioritySet(s, t, p).prio && t in PrioritySet(s, t, p).own.base
    ensures PrioritySet(s, t, p).own.base[t] <= PrioritySet(s, t, p).prio[t]
       <==> s.prio[t] == s.own.base[t] || p <= s.prio[t]
  {
    hide Core, MoveLists, SetFreeValue;
    TaskKnown(s, t);
  }

  /**
   What it does in full: the base priority is the new one, and so is the priority unless the task inherits one; a ready
   task moves to the ready list of its priority, and no other task is touched.
   */
  lemma PrioritySetOnly(s: K, t: TaskId, p: nat)
    requires Inv(s) && t in s.prio && p < s.cfg.P
    ensures t in s.own.base && t in s.lists.at
    ensures var r, q := PrioritySet(s, t, p), if s.prio[t] == s.own.base[t] then p else s.prio[t];
      && r.own.base == s.own.base[t := p] && r.own.held == s.own.held && r.own.mutexes == s.own.mutexes
      && r.prio == s.prio[t := q] && r.lists.at == (if s.lists.at[t].Ready? then s.lists.at[t := Ready(q)] else s.lists.at)
      && r.ev.at == s.ev.at && r.ev.waiting == s.ev.waiting
  {
    hide Inv, MoveLists, ListsOk, EventsOk, Owned, Placed, Consistent, Configured, Filed;
    InvParts(s);
    TaskKnown(s, t);
    if IsReady(s.lists, t) { ReadyAtOwn(s, t); }
    var q := if s.prio[t] == s.own.base[t] then p else s.prio[t];
    if s.own.base[t] == p {
      assert s.own.base[t := p] == s.own.base && s.prio[t := q] == s.prio && s.lists.at[t := s.lists.at[t]] == s.lists.at;
    } else {
      MoveListsPlaced(s.lists, t, q);
    }
  }

  lemma ReadyAtOwn(s: K, t: TaskId)
    requires Inv(s) && IsReady(s.lists, t)
    ensures t in s.prio && s.lists.at[t] == Ready(s.prio[t])
  {
  }

  lemma StepAboveBase(s: K, op: Op, r: K)
    requires Inv(s) && Next(s, op, r) && AboveBase(s) && SafeReprice(s, op)
    ensures AboveBase(r)
  {
    hide Core, ClockStep, WaitStep, MutexStep;
    match op
    case OnClock(c) => ClockStepPriorities(s, c, r);
    case OnTask(k) => TaskStepAboveBase(s, k, r);
    case OnWait(w) => WaitStepSame(s, w, r);
    case OnMutex(x) => MutexStepFloors(s, x, r);
  }

  lemma TaskStepAboveBase(s: K, op: TaskOp, r: K)
    requires Inv(s) && TaskStep(s, op, r) && AboveBase(s) && SafeReprice(s, OnTask(op))
    ensures AboveBase(r)
  {
    hide Core, TaskStep, PrioritySet;
    forall t | t in r.prio && t in r.own.base ensures r.own.base[t] <= r.prio[t] {
      if t in s.prio {
        TaskIsKnown(s, t);
        TaskStepSame(s, op, r, t);
        if Reprices(op, t) { RepricedAboveBase(s, op, r); }
      } else {
        NewAtBase(s, op, r, t);
      }
    }
  }

  lemma RepricedAboveBase(s: K, op: TaskOp, r: K)
    requires Inv(s) && TaskStep(s, op, r) && AboveBase(s) && SafeReprice(s, OnTask(op)) && op.SetTaskPriority?
    ensures op.t in r.prio && op.t in r.own.base && r.own.base[op.t] <= r.prio[op.t]
  {
    hide Core, PrioritySet;
    RepriceAboveBase(s, op.t, op.p);
  }

  lemma NewAtBase(s: K, op: TaskOp, r: K, t: TaskId)
    requires Inv(s) && TaskStep(s, op, r) && t !in s.prio && t in r.prio && t in r.own.base
    ensures r.own.base[t] == r.prio[t]
  {
    hide Core, CreateLists, SuspendLists, ToReady, TerminateLists, ForgetLists, ForgetEvents, MoveLists, SetFreeValue, EventItems.Remove;
  }

  /** Over every run whose priority changes are safe, no task's priority is below its base priority. */
  lemma {:induction false} NeverBelowBase(states: seq<K>, ops: seq<Op>, n: nat)
    requires IsRun(states, ops) && Inv(states[0]) && AboveBase(states[0]) && n < |states|
    requires forall i :: 0 <= i < n ==> SafeReprice(states[i], ops[i])
    ensures AboveBase(states[n])
  {
    hide Inv, Next, AboveBase, SafeReprice;
    if n > 0 {
      NeverBelowBase(states, ops, n - 1);
      RunKeeps(states, ops, n - 1);
      assert Step(states[n - 1], ops[n - 1], states[n]);
      StepAboveBase(states[n - 1], ops[n - 1], states[n]);
    }
  }

  // ------------------------------------------------------------------ recursive mutexes balance

  /** +1 for a take by the holder-to-be or the holder, -1 for a give by the holder. */
  function Weight(s: K, op: Op, m: MutexId): int {
    match op
    case OnMutex(TakeAgain(k)) => if k == m then 1 else 0
    case OnMutex(GiveAgain(k)) => if k == m && m in s.own.mutexes && s.own.mutexes[m].holder == Task(s.cpu.current) then -1 else 0
    case _ => 0
  }

  function Balance(states: seq<K>, ops: seq<Op>, m: MutexId, n: nat): int
    requires n <= |ops| < |states|
  {
    if n == 0 then 0 else Balance(states, ops, m, n - 1) + Weight(states[n - 1], ops[n - 1], m)
  }

  /**
   The call count of a recursive mutex is always its takes less its holder's gives, and the mutex is free
   exactly when they balance.
   */
  lemma {:induction false} RecursiveMutexBalances(states: seq<K>, ops: seq<Op>, m: MutexId, n: nat)
    requires IsRun(states, ops) && Inv(states[0]) && n < |states|
    requires m in states[0].own.mutexes && states[0].own.mutexes[m].recursive
    ensures m in states[n].own.mutexes && states[n].own.mutexes[m].recursive
    ensures states[n].own.mutexes[m].count == states[0].own.mutexes[m].count + Balance(states, ops, m, n)
    ensures states[n].own.mutexes[m].holder == Nobody <==> states[0].own.mutexes[m].count + Balance(states, ops, m, n) == 0
  {
    hide Inv, Next;
    if n > 0 {
      RecursiveMutexBalances(states, ops, m, n - 1);
      RunKeeps(states, ops, n - 1);
      assert Step(states[n - 1], ops[n - 1], states[n]);
      StepMovesMutex(states[n - 1], ops[n - 1], states[n], m);
      RecursiveUse(states[n - 1], ops[n - 1], states[n], m);
      MutexFacts(states[n - 1], m);
    }
    RunKeeps(states, ops, n);
    MutexFacts(states[n], m);
  }

  lemma RecursiveUse(s: K, op: Op, r: K, m: MutexId)
    requires Inv(s) && Next(s, op, r) && m in s.own.mutexes && s.own.mutexes[m].recursive
    ensures op != OnMutex(TakeFree(m)) && op != OnMutex(Give(m))
  {
    hide Core, ClockStep, TaskStep, WaitStep, TakeMutex, GiveMutex, BlockOnMutex, TakeRecursive, GiveRecursive;
  }

  // ------------------------------------------------------------------ conditions survive priority changes

  lemma MutexStepCondition(s: K, op: MutexOp, r: K, t: TaskId, v: nat)
    requires Inv(s) && MutexStep(s, op, r) && Condition(s, t, v) && t in r.ev.at && r.ev.at[t] == s.ev.at[t]
    ensures Condition(r, t, v)
  {
    hide Inv, ListsOk, EventsOk, Owned, Placed, Consistent, Configured, BlockOnMutex, GiveMutex, Take, Floors, Release;
    InvParts(s);
    MutexStepFloors(s, op, r);
    if !op.NewMutex? { ReadyWaitsNowhere(s, s.cpu.current); }
    match op
    case BlockOn(m, ticks) => BlockOnMutexValues(s, m, ticks, t);
    case Give(m) => if s.own.mutexes[m].messages != 1 { GiveMutexValues(s, m); }
    case GiveAgain(m) =>
      if s.own.mutexes[m].holder == Task(s.cpu.current) && s.own.mutexes[m].count <= 1 { GiveMutexValues(s, m); }
    case _ =>
  }

  lemma BlockOnMutexValues(s: K, m: MutexId, ticks: nat, t: TaskId)
    requires Inv(s) && IsReady(s.lists, s.cpu.current) && m in s.own.mutexes && s.own.mutexes[m].messages == 0
    requires m in s.ev.waiting && t in s.ev.value && s.ev.value[t] >= s.cfg.inUse
    ensures var r := BlockOnMutex(s, m, ticks); t in r.ev.value && r.ev.value[t] == s.ev.value[t]
  {
    hide Inv, ListsOk, EventsOk, Owned, Placed, Consistent, BlockLists, SortedInsert, MoveLists;
    InvParts(s);
    HeldMutex(s, m);
    var h := s.own.mutexes[m].holder.id;
    InheritKeeps(s, h);
    InheritFrame(s, h);
    TaskKnown(s, h);
  }

  lemma GiveMutexValues(s: K, m: MutexId)
    requires Inv(s) && m in s.own.mutexes && s.own.mutexes[m].holder == Task(s.cpu.current) && m in s.ev.waiting
    ensures forall t :: t in s.ev.value && t != s.cpu.current ==>
      t in GiveMutex(s, m).ev.value && GiveMutex(s, m).ev.value[t] == s.ev.value[t]
  {
    hide Inv, ListsOk, EventsOk, Owned, Placed, Consistent, MoveLists, ToReady;
    GiveBackKeeps(s, m);
    GiveBackFrame(s, m);
    HolderFacts(s, m);
  }

  /**
   Whatever happens, including every change and inheritance of its priority, a task that stays on an event
   group's list keeps the condition it stored there.
   */
  lemma StepKeepsCondition(s: K, op: Op, r: K, t: TaskId, v: nat)
    requires Inv(s) && Next(s, op, r) && Condition(s, t, v) && t in r.ev.at && r.ev.at[t] == s.ev.at[t]
    ensures Condition(r, t, v)
  {
    hide Core, ClockStep, TaskStep, WaitStep, MutexStep;
    match op
    case OnClock(c) => ClockStepPriorities(s, c, r);
    case OnTask(k) => TaskStepCondition(s, k, r, t, v);
    case OnWait(w) => WaitStepCondition(s, w, r, t, v);
    case OnMutex(x) => MutexStepCondition(s, x, r, t, v);
  }

  /** A task that waits for bits joins the end of the list, with its condition, marked as in use, as item value. */
  lemma WaitingStores(s: K, l: ListId, value: nat, ticks: nat)
    requires Inv(s) && IsReady(s.lists, s.cpu.current) && l in s.ev.waiting
    ensures var r := PlaceOnUnordered(s, l, value, ticks);
      && Condition(r, s.cpu.current, value + s.cfg.inUse) && r.ev.at[s.cpu.current] == On(l)
      && l in r.ev.waiting && r.ev.waiting[l] == s.ev.waiting[l] + [s.cpu.current]
  {
    hide Core, BlockLists, Consistent;
    CurrentParts(s);
    InvConsistent(s);
  }

  lemma {:induction false} ConditionLasts(states: seq<K>, ops: seq<Op>, t: TaskId, v: nat, n: nat)
    requires IsRun(states, ops) && Inv(states[0]) && Condition(states[0], t, v) && n < |states|
    requires forall i :: 0 <= i <= n ==> t in states[i].ev.at && states[i].ev.at[t] == states[0].ev.at[t]
    ensures Condition(states[n], t, v)
  {
    hide Inv, Next, Condition;
    if n > 0 {
      ConditionLasts(states, ops, t, v, n - 1);
      RunKeeps(states, ops, n - 1);
      assert Step(states[n - 1], ops[n - 1], states[n]);
      StepKeepsCondition(states[n - 1], ops[n - 1], states[n], t, v);
    }
  }

  // ------------------------------------------------------------------ time slicing

  /** The tasks chosen by `n` context switches in a row. */
  function Chosen(s: K, n: nat): seq<TaskId>
    requires Inv(s)
    decreases n
  {
    if n == 0 then [] else
      SwitchContextKeeps(s);
      [SwitchContext(s).cpu.current] + Chosen(SwitchContext(s), n - 1)
  }

  /** The ready list the next switch selects from: the highest one with a task in it. */
  function TopRing(s: K): (ring: Ring<TaskId>)
    requires Inv(s)
    ensures ring.items != [] && ring.index <= |ring.items| && NoDup(ring.items)
  {
    TopFits(s);
    var p := HighestFrom(s.lists.ready, s.cpu.top);
    TopOk(s, p);
    s.lists.ready[p]
  }

  lemma TopFits(s: K)
    requires Inv(s)
    ensures s.cpu.top < |s.lists.ready| && s.lists.ready[0].items != []
  {
    hide Core;
    var p := TopOf(s);
  }

  lemma TopOk(s: K, p: nat)
    requires Inv(s) && p < |s.lists.ready|
    ensures RingOk(s.lists.ready[p])
  {
    assert Holds(s.lists.ready[p].items, s.lists.at, Ready(p));
  }

  /** From `s` to `r` that list is turned by one place, and the task it arrives at runs. */
  ghost predicate Serves(s: K, r: K) {
    && Inv(s) && Inv(r) && r.clock == s.clock
    && TopRing(r) == RingNext(TopRing(s)) && r.cpu.current == RingCurrent(RingNext(TopRing(s)))
  }

  lemma SwitchServes(s: K)
    requires Inv(s) && s.clock.depth == 0
    ensures Serves(s, SwitchContext(s))
  {
    hide Core, HighestFrom;
    SwitchContextKeeps(s);
    var p := TopOf(s);
    TopUnchanged(s.lists.ready, p);
  }

  lemma TopUnchanged(ready: seq<Ring<TaskId>>, p: nat)
    requires p < |ready| && ready[0].items != [] && ready[p].items != [] && ready[p].index <= |ready[p].items|
    ensures HighestFrom(ready[p := RingNext(ready[p])], p) == p
  {
  }

  lemma {:induction false} ChosenAreServed(s: K, n: nat)
    requires Inv(s) && s.clock.depth == 0
    ensures Chosen(s, n) == Served(TopRing(s), n)
    decreases n
  {
    hide Core, SwitchContext, TopRing, RingNext, RingCurrent, NoDup;
    if n > 0 {
      SwitchServes(s);
      ChosenAreServed(SwitchContext(s), n - 1);
      assert Chosen(s, n) == [SwitchContext(s).cpu.current] + Chosen(SwitchContext(s), n - 1);
    }
  }

  /** With `n` tasks ready at the top priority, any `n` switches in a row run each of them exactly once. */
  lemma RoundRobin(s: K)
    requires Inv(s) && s.clock.depth == 0
    ensures NoDup(Chosen(s, |TopRing(s).items|))
    ensures forall t :: t in Chosen(s, |TopRing(s).items|) <==> t in TopRing(s).items
  {
    hide Inv, TopRing;
    ChosenAreServed(s, |TopRing(s).items|);
    FullRoundServesEachOnce(TopRing(s));
  }

  // ------------------------------------------------------------------ the invariant starts true

  function OnlyIdle(P: nat, idle: TaskId): seq<Ring<TaskId>> {
    seq(P, p => if p == 0 then Ring([idle], 1) else Ring([], 0))
  }

  /** The state when the scheduler starts with only the idle task. */
  function Started(cfg: Config, idle: TaskId): K {
    K(cfg, Clock(0, 0, 0), map[idle := 0], Lists(map[idle := Ready(0)], OnlyIdle(cfg.P, idle), [], [], []), map[],
      Events(map[idle := Nowhere], [], map[], map[idle := cfg.P]), Own(map[idle := 0], map[idle := 0], map[]),
      Cpu(idle, idle, 0, false), 1, 0)
  }

  lemma StartedInv(cfg: Config, idle: TaskId)
    requires cfg.M == 2 * cfg.inUse && 1 <= cfg.P < cfg.inUse
    ensures Inv(Started(cfg, idle))
  {
    var s := Started(cfg, idle);
    forall p | 0 <= p < |s.lists.ready| ensures Holds(s.lists.ready[p].items, s.lists.at, Ready(p)) {
    }
    assert HeldBy(s.own, idle) == {};
  }

  // ------------------------------------------------------------------ a priority below its base can be reached

  lemma CreateFacts(s: K, t: TaskId, p: nat)
    requires Inv(s) && t !in s.prio && p < s.cfg.P
    ensures var r := KernelOps.Create(s, t, p);
      && Inv(r) && r.cfg == s.cfg && r.clock == s.clock && r.cpu.current == s.cpu.current && r.cpu.idle == s.cpu.idle
      && r.prio == s.prio[t := p] && r.own == NewOwn(s.own, t, p) && r.lists.at == s.lists.at[t := Ready(p)]
      && r.ev.waiting == s.ev.waiting
  {
    hide Core, CreateLists, ListsOk, EventsOk, Owned, Placed, Consistent, Configured;
    CreateKeeps(s, t, p);
    InvParts(s);
    CreateListsPlaced(s.lists, t, p);
  }

  lemma SwitchFacts(s: K, t: TaskId)
    requires Inv(s) && s.clock.depth == 0 && IsReady(s.lists, t)
    ensures var r := SwitchContext(s);
      && Inv(r) && r.cfg == s.cfg && r.clock == s.clock && r.cpu.idle == s.cpu.idle && r.prio == s.prio && r.own == s.own
      && r.lists.at == s.lists.at && r.ev == s.ev && IsReady(r.lists, r.cpu.current)
      && r.cpu.current in s.prio && t in s.prio && s.prio[t] <= s.prio[r.cpu.current]
  {
    hide Core, HighestFrom, RingNext, RingCurrent, ListsOk, EventsOk, Owned, Placed, Consistent, Configured;
    SwitchContextKeeps(s);
    SwitchContextPicksHighest(s, t);
    InvParts(SwitchContext(s));
    InvParts(s);
  }

  /** The running task owns the one mutex there is, and a task of priority 3 is about to ask for it. */
  ghost predicate Contended(s: K) {
    && Inv(s) && s.clock.depth == 0 && s.cpu.current == 2 && IsReady(s.lists, 2) && IsReady(s.lists, 1) && s.cpu.idle == 0
    && s.prio == map[0 := 0, 1 := 1, 2 := 3] && 1 in s.own.base && s.own.base[1] == 1 && 0 in s.own.mutexes
    && s.own.mutexes[0] == Mutex(0, Task(1), false, 0) && 0 in s.ev.waiting && s.ev.waiting[0] == []
    && 1 in s.own.held && s.own.held[1] == 1 && 2 in s.own.base && s.own.base[2] == 3
  }

  /** The running task, 1, owns the one mutex there is, and nobody waits for it. */
  ghost predicate Owning(s: K) {
    && Inv(s) && s.clock.depth == 0 && s.cpu.current == 1 && IsReady(s.lists, 1) && s.cpu.idle == 0
    && s.prio == map[0 := 0, 1 := 1] && 1 in s.own.base && s.own.base[1] == 1 && 0 in s.own.mutexes
    && s.own.mutexes[0] == Mutex(0, Task(1), false, 0) && 0 in s.ev.waiting && s.ev.waiting[0] == []
    && 1 in s.own.held && s.own.held[1] == 1
  }

  lemma TakeOne(cfg: Config) returns (states: seq<K>, ops: seq<Op>)
    requires cfg.M == 2 * cfg.inUse && 5 <= cfg.P < cfg.inUse
    ensures IsRun(states, ops) && |ops| == 4 && states[0] == Started(cfg, 0) && states[4].cfg == cfg && Owning(states[4])
  {
    hide Core, KernelOps.Create, SwitchContext, CreateMutex, TakeMutex;
    var s0 := Started(cfg, 0);
    StartedInv(cfg, 0);
    var s1 := KernelOps.Create(s0, 1, 1);
    CreateFacts(s0, 1, 1);
    var s2 := SwitchContext(s1);
    SwitchFacts(s1, 1);
    assert s2.cpu.current == 1;
    var s3 := CreateMutex(s2, 0, false);
    CreateMutexKeeps(s2, 0, false);
    NewMutexFacts(s2);
    var s4 := TakeMutex(s3, 0);
    TakeMutexKeeps(s3, 0);
    TakenFacts(s3);
    states := [s0, s1, s2, s3, s4];
    ops := [OnTask(CreateTask(1, 1)), OnClock(Switch), OnMutex(NewMutex(0, false)), OnMutex(TakeFree(0))];
  }

  /** Idle task 0, task 1 of priority 1 with the mutex, task 2 of priority 3. */
  lemma Contend(cfg: Config) returns (states: seq<K>, ops: seq<Op>)
    requires cfg.M == 2 * cfg.inUse && 5 <= cfg.P < cfg.inUse
    ensures IsRun(states, ops) && |ops| == 6 && states[0] == Started(cfg, 0) && states[6].cfg == cfg && Contended(states[6])
  {
    hide Core, Next, Owning, Contended;
    states, ops := TakeOne(cfg);
    var s5, s6 := RivalCreated(states[4]);
    states := states + [s5, s6];
    ops := ops + [OnTask(CreateTask(2, 3)), OnClock(Switch)];
  }

  lemma RivalCreated(s: K) returns (q: K, r: K)
    requires Owning(s) && s.cfg.P >= 5
    ensures Step(s, OnTask(CreateTask(2, 3)), q) && Step(q, OnClock(Switch), r) && r.cfg == s.cfg && Contended(r)
  {
    hide Core, KernelOps.Create, SwitchContext;
    q := KernelOps.Create(s, 2, 3);
    CreateFacts(s, 2, 3);
    r := SwitchContext(q);
    SwitchFacts(q, 2);
    assert r.cpu.current == 2;
  }

  lemma NewMutexFacts(s: K)
    ensures var r := CreateMutex(s, 0, false);
      && r.prio == s.prio && r.lists == s.lists && r.clock == s.clock && r.cfg == s.cfg && r.cpu == s.cpu && r.own.base == s.own.base
      && 0 in r.own.mutexes && r.own.mutexes[0] == Mutex(1, Nobody, false, 0) && 0 in r.ev.waiting && r.ev.waiting[0] == []
      && r.own.held == s.own.held
  {
  }

  lemma TakenFacts(s: K)
    requires Inv(s) && 0 in s.own.mutexes && s.own.mutexes[0] == Mutex(1, Nobody, false, 0)
    ensures var r := TakeMutex(s, 0);
      && r.prio == s.prio && r.lists == s.lists && r.clock == s.clock && r.cfg == s.cfg && r.cpu == s.cpu && r.own.base == s.own.base
      && r.ev == s.ev && 0 in r.own.mutexes && r.own.mutexes[0] == Mutex(0, Task(s.cpu.current), false, 0)
      && s.cpu.current in s.own.held && r.own.held == s.own.held[s.cpu.current := s.own.held[s.cpu.current] + 1]
  {
    hide Core;
    CurrentParts(s);
    TaskKnown(s, s.cpu.current);
  }

  /**
   `vTaskPrioritySet` on a task with an inherited priority does reach a priority below the base: task 2 waits for
   the mutex of task 1, which inherits priority 3; then task 1 is given base priority 4 and still runs at 3.
   */
  lemma BelowBaseReachable(cfg: Config) returns (states: seq<K>, ops: seq<Op>)
    requires cfg.M == 2 * cfg.inUse && 5 <= cfg.P < cfg.inUse
    ensures IsRun(states, ops) && |ops| == 8 && states[0] == Started(cfg, 0)
    ensures 1 in states[8].prio && 1 in states[8].own.base && states[8].prio[1] == 3 && states[8].own.base[1] == 4
  {
    hide Inv, Next, Contended;
    states, ops := Contend(cfg);
    var s := states[6];
    var r, q := Overtake(s);
    states := states + [r, q];
    ops := ops + [OnMutex(BlockOn(0, 1)), OnTask(SetTaskPriority(1, 4))];
  }

  lemma Overtake(s: K) returns (r: K, q: K)
    requires Contended(s) && s.cfg.P >= 5
    ensures Step(s, OnMutex(BlockOn(0, 1)), r) && Step(r, OnTask(SetTaskPriority(1, 4)), q)
    ensures 1 in q.prio && 1 in q.own.base && q.prio[1] == 3 && q.own.base[1] == 4
  {
    hide Core, BlockOnMutex, Repriced, SetFreeValue;
    HasTicks(s);
    r := BlockOnMutex(s, 0, 1);
    BlockOnMutexKeeps(s, 0, 1);
    WaiterRaisesHolder(s);
    q := RaiseBase(r);
  }

  lemma HasTicks(s: K)
    requires Inv(s)
    ensures 1 < s.cfg.M
  {
  }

  lemma WaiterRaisesHolder(s: K)
    requires Contended(s)
    ensures var r := BlockOnMutex(s, 0, 1);
      && r.cfg == s.cfg && r.cpu.idle == 0 && 1 in r.prio && r.prio[1] == 3 && r.own == s.own && IsReady(r.lists, 1)
  {
    hide Inv, PlaceOnEventList, Inherit;
    InheritedPriority(s);
    HeldMutex(s, 0);
    InheritKeeps(s, 1);
    InheritFrame(s, 1);
    BlockedFrame(Inherit(s, 1));
  }

  lemma InheritedPriority(s: K)
    requires Contended(s)
    ensures 1 in Inherit(s, 1).prio && Inherit(s, 1).prio[1] == 3 && IsReady(Inherit(s, 1).lists, 1)
  {
    hide Inv, Placed, Consistent, ListsOk, EventsOk, Owned, Configured, MoveLists, SetFreeValue;
    InvParts(s);
    TaskKnown(s, 1);
    MoveListsPlaced(s.lists, 1, 3);
  }

  lemma BlockedFrame(s: K)
    requires Inv(s) && IsReady(s.lists, s.cpu.current) && 0 in s.ev.waiting && IsReady(s.lists, 1) && s.cpu.current != 1
    ensures var r := PlaceOnEventList(s, 0, 1);
      && r.cfg == s.cfg && r.cpu == s.cpu && r.prio == s.prio && r.own == s.own && IsReady(r.lists, 1)
  {
    hide Inv, Placed, Consistent, ListsOk, EventsOk, Owned, Configured, BlockLists, InsertSorted;
    InvParts(s);
    var c, e := s.cpu.current, ForEver(s.cfg, 1, true);
    var w := if e then s.wake else s.wake[c := s.clock.now + 1];
    assert forall u :: u in s.lists.delayed ==> u in w;
    BlockListsPlaced(s.lists, c, w, e);
  }

  lemma RaiseBase(r: K) returns (q: K)
    requires Inv(r) && r.cfg.P >= 5 && r.cpu.idle == 0 && IsReady(r.lists, 1)
    requires 1 in r.prio && r.prio[1] == 3 && 1 in r.own.base && r.own.base[1] == 1
    ensures Step(r, OnTask(SetTaskPriority(1, 4)), q)
    ensures 1 in q.prio && 1 in q.own.base && q.prio[1] == 3 && q.own.base[1] == 4
  {
    hide Core, MoveLists, SetFreeValue;
    TaskKnown(r, 1);
    q := PrioritySet(r, 1, 4);
  }
}

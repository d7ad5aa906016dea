/** Runs of the kernel: any sequence of ticks, interrupts and task calls, and what every run keeps. */
module KernelRuns {
  import opened Sequences
  import opened StateLists
  import opened EventItems
  import opened Ownership
  import opened KernelSpec
  import opened KernelOps
  import opened KernelOwnership
  import opened KernelMutex

  datatype ClockOp = TickInterrupt | SuspendAll | EnableAll | Switch

  datatype TaskOp = CreateTask(t: TaskId, p: nat) | DeleteTask(t: TaskId) | IdleCleanUp
    | SuspendTask(t: TaskId) | ResumeTask(t: TaskId) | ResumeTaskFromISR(t: TaskId) | SetTaskPriority(t: TaskId, p: nat)

  datatype WaitOp = NewList(l: ListId) | DelayFor(ticks: nat) | WaitOn(l: ListId, ticks: nat)
    | WaitForBits(l: ListId, value: nat, ticks: nat) | WakeFrom(l: ListId) | WakeWaiter(t: TaskId, value: nat) | ResetValue

  datatype MutexOp = NewMutex(m: MutexId, recursive: bool) | TakeFree(m: MutexId) | BlockOn(m: MutexId, ticks: nat)
    | Give(m: MutexId) | TakeAgain(m: MutexId) | GiveAgain(m: MutexId)

  datatype Op = OnClock(c: ClockOp) | OnTask(k: TaskOp) | OnWait(w: WaitOp) | OnMutex(x: MutexOp)

  /** The handle names a task that has been created and not deleted. */
  predicate Live(s: K, t: TaskId) {
    t in s.prio && t in s.lists.at && s.lists.at[t] != Termination
  }

  /** A task that makes a call is running, so it is ready. */
  predicate Running(s: K) {
    IsReady(s.lists, s.cpu.current) && s.cpu.current != s.cpu.idle
  }

  /** The running task may block, for at least one tick. */
  predicate MayBlock(s: K, ticks: nat) {
    Running(s) && 1 <= ticks < s.cfg.M
  }

  predicate KnownMutex(s: K, m: MutexId, recursive: bool) {
    m in s.own.mutexes && s.own.mutexes[m].recursive == recursive && m in s.ev.waiting
  }

  predicate MayDelete(s: K, t: TaskId) {
    Live(s, t) && t != s.cpu.idle && t in s.own.held && s.own.held[t] == 0 && (t == s.cpu.current ==> s.clock.depth == 0)
  }

  predicate MayCleanUp(s: K) {
    s.lists.termination != [] && s.cpu.current == s.cpu.idle && s.lists.termination[0] in s.own.held
    && s.own.held[s.lists.termination[0]] == 0
  }

  predicate MayGive(s: K, m: MutexId) {
    Running(s) && KnownMutex(s, m, false) && (s.own.mutexes[m].messages == 1 || s.own.mutexes[m].holder == Task(s.cpu.current))
  }

  predicate MayTakeAgain(s: K, m: MutexId) {
    Running(s) && KnownMutex(s, m, true)
    && (s.own.mutexes[m].holder == Task(s.cpu.current) || s.own.mutexes[m].messages == 1)
  }

  /** Giving a mutex that is free fails with errQUEUE_FULL and changes nothing. */
  function GiveIfHeld(s: K, m: MutexId): K
    requires Inv(s) && MayGive(s, m)
  {
    if s.own.mutexes[m].messages == 1 then s else GiveMutex(s, m)
  }

  function Delete(s: K, t: TaskId): K
    requires Inv(s) && MayDelete(s, t)
  {
    if t == s.cpu.current then DeleteSelf(s) else
      DeletableOther(s, t);
      Forget(s, t)
  }

  lemma DeletableOther(s: K, t: TaskId)
    requires Inv(s) && MayDelete(s, t) && t != s.cpu.current
    ensures MayForget(s, t) && s.tasks > 0 && (s.lists.at[t] == Termination ==> s.cleanUp > 0)
  {
    hide Core, ListsOk, EventsOk, Owned, Forget;
    ForgetKeeps(s, t);
  }

  function CleanUp(s: K): K
    requires Inv(s) && MayCleanUp(s)
  {
    CleanUpFirst(s);
    Forget(s, s.lists.termination[0])
  }

  lemma CleanUpFirst(s: K)
    requires Inv(s) && MayCleanUp(s)
    ensures MayForget(s, s.lists.termination[0]) && s.tasks > 0 && s.cleanUp > 0
  {
    assert s.lists.termination[0] in s.lists.termination;
    CoreParts(s, s.clock.now + 1);
    assert |s.prio| > 0;
  }

  // ------------------------------------------------------------------ steps

  /** Each case says what the source asserts or demands of its callers, and what the call does. */
  ghost predicate ClockStep(s: K, op: ClockOp, r: K)
    requires Inv(s)
  {
    match op
    case TickInterrupt => r == Tick(s)
    case SuspendAll => r == s.(clock := s.clock.(depth := s.clock.depth + 1))
    case EnableAll => s.clock.depth > 0 && r == ResumeAll(s)
    case Switch => r == SwitchContext(s)
  }

  ghost predicate TaskStep(s: K, op: TaskOp, r: K)
    requires Inv(s)
  {
    match op
    case CreateTask(t, p) => t !in s.prio && p < s.cfg.P && r == KernelOps.Create(s, t, p)
    case DeleteTask(t) => MayDelete(s, t) && r == Delete(s, t)
    case IdleCleanUp => MayCleanUp(s) && r == CleanUp(s)
    case SuspendTask(t) => Live(s, t) && t != s.cpu.idle && (t == s.cpu.current ==> s.clock.depth == 0) && r == Suspend(s, t)
    case ResumeTask(t) => r == Resume(s, t)
    case ResumeTaskFromISR(t) => r == ResumeFromISR(s, t)
    case SetTaskPriority(t, p) => Live(s, t) && t != s.cpu.idle && p < s.cfg.P && r == PrioritySet(s, t, p)
  }

  ghost predicate WaitStep(s: K, op: WaitOp, r: K)
    requires Inv(s)
  {
    match op
    case NewList(l) => l !in s.ev.waiting && r == CreateList(s, l)
    case DelayFor(ticks) => MayBlock(s, ticks) && r == Delay(s, ticks)
    case WaitOn(l, ticks) => MayBlock(s, ticks) && l in s.ev.waiting && r == PlaceOnEventList(s, l, ticks)
    case WaitForBits(l, v, ticks) =>
      MayBlock(s, ticks) && l in s.ev.waiting && s.clock.depth > 0 && v < s.cfg.inUse && r == PlaceOnUnordered(s, l, v, ticks)
    case WakeFrom(l) => l in s.ev.waiting && s.ev.waiting[l] != [] && r == WakeHead(s, l)
    case WakeWaiter(t, v) =>
      t in s.ev.at && s.ev.at[t].On? && s.clock.depth > 0 && v < s.cfg.inUse && r == WakeUnordered(s, t, v)
    case ResetValue => Running(s) && r == ResetItemValue(s)
  }

  ghost predicate MutexStep(s: K, op: MutexOp, r: K)
    requires Inv(s)
  {
    match op
    case NewMutex(m, recursive) => m !in s.own.mutexes && m !in s.ev.waiting && r == CreateMutex(s, m, recursive)
    case TakeFree(m) =>
      Running(s) && KnownMutex(s, m, false) && s.own.mutexes[m].messages == 1 && r == TakeMutex(s, m)
    case BlockOn(m, ticks) =>
      MayBlock(s, ticks) && m in s.own.mutexes && s.own.mutexes[m].messages == 0 && m in s.ev.waiting
      && r == BlockOnMutex(s, m, ticks)
    case Give(m) => MayGive(s, m) && r == GiveIfHeld(s, m)
    case TakeAgain(m) => MayTakeAgain(s, m) && r == TakeRecursive(s, m)
    case GiveAgain(m) => Running(s) && KnownMutex(s, m, true) && r == GiveRecursive(s, m)
  }

  ghost predicate Next(s: K, op: Op, r: K)
    requires Inv(s)
  {
    match op
    case OnClock(c) => ClockStep(s, c, r)
    case OnTask(k) => TaskStep(s, k, r)
    case OnWait(w) => WaitStep(s, w, r)
    case OnMutex(x) => MutexStep(s, x, r)
  }

  lemma SuspendAllKeeps(s: K)
    requires Inv(s)
    ensures Inv(s.(clock := s.clock.(depth := s.clock.depth + 1)))
  {
    hide ListsOk, EventsOk, Owned, Configured;
  }

  lemma DeleteKeeps(s: K, t: TaskId)
    requires Inv(s) && MayDelete(s, t)
    ensures Inv(Delete(s, t))
  {
    hide Core, DeleteSelf, Forget;
    if t == s.cpu.current { DeleteSelfKeeps(s); } else { DeletableOther(s, t); ForgetKeeps(s, t); }
  }

  lemma CleanUpKeeps(s: K)
    requires Inv(s) && MayCleanUp(s)
    ensures Inv(CleanUp(s))
  {
    hide Core, Forget;
    CleanUpFirst(s);
    ForgetKeeps(s, s.lists.termination[0]);
  }

  lemma ClockKeeps(s: K, op: ClockOp, r: K)
    requires Inv(s) && ClockStep(s, op, r)
    ensures Inv(r)
  {
    hide Core, Tick, ResumeAll, SwitchContext;
    match op
    case TickInterrupt => TickKeeps(s);
    case SuspendAll => SuspendAllKeeps(s);
    case EnableAll => ResumeAllKeeps(s);
    case Switch => SwitchContextKeeps(s);
  }

  lemma TaskKeeps(s: K, op: TaskOp, r: K)
    requires Inv(s) && TaskStep(s, op, r)
    ensures Inv(r)
  {
    hide Core, KernelOps.Create, Delete, CleanUp, Suspend, Resume, ResumeFromISR, PrioritySet;
    match op
    case CreateTask(t, p) => CreateKeeps(s, t, p);
    case DeleteTask(t) => DeleteKeeps(s, t);
    case IdleCleanUp => CleanUpKeeps(s);
    case SuspendTask(t) => SuspendKeeps(s, t);
    case ResumeTask(t) => ResumeKeeps(s, t);
    case ResumeTaskFromISR(t) => ResumeKeeps(s, t);
    case SetTaskPriority(t, p) => PrioritySetKeeps(s, t, p);
  }

  lemma WaitKeeps(s: K, op: WaitOp, r: K)
    requires Inv(s) && WaitStep(s, op, r)
    ensures Inv(r)
  {
    hide Core, CreateList, Delay, PlaceOnEventList, PlaceOnUnordered, WakeHead, WakeUnordered, ResetItemValue;
    match op
    case NewList(l) => CreateListKeeps(s, l);
    case DelayFor(ticks) => DelayKeeps(s, ticks);
    case WaitOn(l, ticks) => PlaceOnEventListKeeps(s, l, ticks);
    case WaitForBits(l, v, ticks) => PlaceOnUnorderedKeeps(s, l, v, ticks);
    case WakeFrom(l) => WakeHeadKeeps(s, l);
    case WakeWaiter(t, v) => WakeUnorderedKeeps(s, t, v);
    case ResetValue => ResetItemValueKeeps(s);
  }

  lemma MutexKeeps(s: K, op: MutexOp, r: K)
    requires Inv(s) && MutexStep(s, op, r)
    ensures Inv(r)
  {
    hide Core, CreateMutex, TakeMutex, BlockOnMutex, GiveMutex, TakeRecursive, GiveRecursive;
    match op
    case NewMutex(m, recursive) => CreateMutexKeeps(s, m, recursive);
    case TakeFree(m) => TakeMutexKeeps(s, m);
    case BlockOn(m, ticks) => BlockOnMutexKeeps(s, m, ticks);
    case Give(m) => if s.own.mutexes[m].messages != 1 { GiveMutexKeeps(s, m); }
    case TakeAgain(m) => TakeRecursiveKeeps(s, m);
    case GiveAgain(m) => GiveRecursiveKeeps(s, m);
  }

  /** Every operation keeps the invariant. */
  lemma StepKeeps(s: K, op: Op, r: K)
    requires Inv(s) && Next(s, op, r)
    ensures Inv(r)
  {
    hide Core, ClockStep, TaskStep, WaitStep, MutexStep;
    match op
    case OnClock(c) => ClockKeeps(s, c, r);
    case OnTask(k) => TaskKeeps(s, k, r);
    case OnWait(w) => WaitKeeps(s, w, r);
    case OnMutex(x) => MutexKeeps(s, x, r);
  }

  // ------------------------------------------------------------------ runs

  /** The operations are defined on states of the invariant; nothing is claimed of a step from any other. */
  ghost predicate Step(s: K, op: Op, r: K) {
    Inv(s) ==> Next(s, op, r)
  }

  ghost predicate IsRun(states: seq<K>, ops: seq<Op>) {
    |states| == |ops| + 1 && forall i :: 0 <= i < |ops| ==> Step(states[i], ops[i], states[i + 1])
  }

  /** From a state of the invariant, every state of every run satisfies it. */
  lemma {:induction false} RunKeeps(states: seq<K>, ops: seq<Op>, n: nat)
    requires IsRun(states, ops) && Inv(states[0]) && n < |states|
    ensures Inv(states[n])
  {
    hide Inv, Next;
    if n > 0 {
      RunKeeps(states, ops, n - 1);
      assert Step(states[n - 1], ops[n - 1], states[n]);
      StepKeeps(states[n - 1], ops[n - 1], states[n]);
    }
  }

  // ------------------------------------------------------------------ the partition of the tasks, spelled out

  /** The lists of `s` hold every task once, and the counters count them. */
  ghost predicate Partition(s: K) {
    && s.tasks == |s.prio| == Lengths(s.lists.ready) + |s.lists.delayed| + |s.lists.suspended| + |s.lists.termination|
    && s.cleanUp == |s.lists.termination|
    && (forall t :: t in s.prio ==> Homes(s.lists, t) == 1 && Places(s.ev, t) <= 1)
    && (forall p :: s.cpu.top < p < |s.lists.ready| ==> s.lists.ready[p].items == [])
  }

  /** A task in a ready list is in the one of its priority. */
  ghost predicate ReadyByPriority(s: K) {
    forall t, p :: t in s.prio && 0 <= p < |s.lists.ready| && t in s.lists.ready[p].items ==> p == s.prio[t]
  }

  lemma PartitionHolds(s: K)
    requires Inv(s)
    ensures Partition(s) && ReadyByPriority(s)
  {
    hide Inv, Placed, Filed, Consistent, Owned, Configured, WakeTimes, WaitersBlocked, Homes, Places;
    InvParts(s);
    LengthsSumToTasks(s.lists, s.prio);
    forall t | t in s.prio
      ensures Homes(s.lists, t) == 1 && Places(s.ev, t) <= 1
      ensures forall p :: 0 <= p < |s.lists.ready| && t in s.lists.ready[p].items ==> p == s.prio[t]
    {
      ExactlyOneHome(s.lists, s.prio, t);
      AtMostOnePlace(s.ev, t);
    }
  }

  /**
   In every state of every run each task's state item is in exactly one list, if ready that of its priority, its
   event item in at most one, the list lengths sum to `uxCurrentNumberOfTasks`, `uxDeletedTasksWaitingCleanUp` is the
   length of the termination list, and no ready list above `uxTopReadyPriority` has a task in it.
   */
  lemma PartitionAlways(states: seq<K>, ops: seq<Op>, n: nat)
    requires IsRun(states, ops) && Inv(states[0]) && n < |states|
    ensures Partition(states[n]) && ReadyByPriority(states[n])
  {
    hide Inv, Next, Partition, ReadyByPriority;
    RunKeeps(states, ops, n);
    PartitionHolds(states[n]);
  }

  /** Mutexes are counted: free exactly when nobody holds them, and each task's count is the mutexes that name it. */
  ghost predicate Accounts(s: K) {
    && (forall m :: m in s.own.mutexes ==>
          s.own.mutexes[m].messages <= 1 && (s.own.mutexes[m].messages == 1 <==> s.own.mutexes[m].holder == Nobody))
    && (forall t :: t in s.prio ==>
          && t in s.own.held && t in s.own.base && s.own.held[t] == |HeldBy(s.own, t)|
          && (s.own.held[t] == 0 ==> s.prio[t] == s.own.base[t]))
  }

  lemma AccountsHold(s: K)
    requires Inv(s)
    ensures Accounts(s)
  {
    hide Inv, HeldBy, Placed, Consistent, Configured, ListsOk, EventsOk;
    InvParts(s);
  }

  /** And in every state of every run a task that holds no mutex runs at its own priority. */
  lemma AccountsAlways(states: seq<K>, ops: seq<Op>, n: nat)
    requires IsRun(states, ops) && Inv(states[0]) && n < |states|
    ensures Accounts(states[n])
  {
    hide Inv, Next, Accounts;
    RunKeeps(states, ops, n);
    AccountsHold(states[n]);
  }
}

/** What waking comes to: who becomes ready, when, and that nobody is left waiting for a mutex that is free. */
module KernelWaking {
  import opened Sequences
  import opened StateLists
  import opened EventItems
  import opened Ownership
  import opened KernelSpec
  import opened KernelOps
  import opened KernelOwnership
  import opened KernelMutex
  import opened KernelRuns
  import opened KernelTicks
  import opened KernelTime
  import opened KernelPriority
  import opened KernelWaiting

  // ------------------------------------------------------------------ a woken task is ready, or pending

  /** Ready to run, and waiting for nothing. */
  ghost predicate Awake(s: K, t: TaskId) {
    t in s.lists.at && t in s.prio && s.lists.at[t] == Ready(s.prio[t]) && t in s.ev.at && s.ev.at[t] == Nowhere
  }

  /** Woken: awake if the scheduler is running, and noted to be readied when it is resumed if not. */
  ghost predicate Roused(s: K, t: TaskId) {
    if s.clock.depth == 0 then Awake(s, t) else t in s.ev.at && s.ev.at[t] == Pending
  }

  lemma MakeReadyAwakes(s: K, t: TaskId)
    requires Placed(s.lists) && t in s.lists.at && Consistent(s.ev) && t in s.ev.at && t in s.prio && s.prio[t] < |s.lists.ready|
    ensures Awake(MakeReady(s, t), t) && MakeReady(s, t).clock == s.clock && MakeReady(s, t).prio == s.prio
  {
    hide Placed, Consistent, ToReady, EventItems.Remove;
    ToReadyPlaced(s.lists, t, s.prio[t]);
    RemoveConsistent(s.ev, t);
  }

  lemma WakeRouses(s: K, t: TaskId)
    requires Inv(s) && Blocked(s.lists, t)
    ensures Roused(Wake(s, t), t)
  {
    hide Inv, Placed, Consistent, MakeReady, Awake, Defer;
    BlockedParts(s, t);
    MakeReadyAwakes(s, t);
    DeferConsistent(s.ev, t);
  }

  /** `xTaskRemoveFromEventList` wakes the first of the list. */
  lemma WakeHeadRouses(s: K, l: ListId)
    requires Inv(s) && l in s.ev.waiting && s.ev.waiting[l] != []
    ensures Roused(WakeHead(s, l), s.ev.waiting[l][0])
  {
    hide Core, Wake;
    var t := s.ev.waiting[l][0];
    WaiterKnown(s, l, t, s.clock.now + 1);
    WakeRouses(s, t);
  }

  /** Giving a mutex that is waited for wakes the first of the waiters, which is then in no waiting list. */
  lemma GiveWakesHead(s: K, m: MutexId)
    requires Inv(s) && m in s.own.mutexes && s.own.mutexes[m].holder == Task(s.cpu.current) && m in s.ev.waiting
    requires s.ev.waiting[m] != []
    ensures Roused(GiveMutex(s, m), s.ev.waiting[m][0])
    ensures forall l :: l in GiveMutex(s, m).ev.waiting ==> s.ev.waiting[m][0] !in GiveMutex(s, m).ev.waiting[l]
  {
    hide Core, GiveBack, WakeHead;
    GiveBackKeeps(s, m);
    GiveBackFrame(s, m);
    GiveMutexKeeps(s, m);
    WakeHeadRouses(GiveBack(s, m), m);
    RousedWaitsNowhere(GiveMutex(s, m), s.ev.waiting[m][0]);
  }

  lemma RousedWaitsNowhere(s: K, t: TaskId)
    requires Inv(s) && Roused(s, t)
    ensures forall l :: l in s.ev.waiting ==> t !in s.ev.waiting[l]
  {
    hide Inv;
    forall l | l in s.ev.waiting ensures t !in s.ev.waiting[l] {
      WaitersKnown(s, l);
    }
  }

  /** `xTaskRemoveFromUnorderedEventList`: the named waiter is awake at once and has its answer. */
  lemma WakeUnorderedAwakes(s: K, t: TaskId, value: nat)
    requires Inv(s) && t in s.ev.at && s.ev.at[t].On?
    ensures var r := WakeUnordered(s, t, value);
      Awake(r, t) && t in r.ev.value && r.ev.value[t] == value + s.cfg.inUse
  {
    hide Inv, Placed, Consistent, MakeReady, Awake;
    WaiterParts(s, t);
    SetValueConsistent(s.ev, t, value + s.cfg.inUse);
    MakeReadyAwakes(s.(ev := SetValue(s.ev, t, value + s.cfg.inUse)), t);
    WakeUnorderedValues(s, t, value);
    AwakeMarked(MakeReady(s.(ev := SetValue(s.ev, t, value + s.cfg.inUse)), t), s.prio[t] > s.prio[s.cpu.current], t);
  }

  lemma AwakeMarked(s: K, y: bool, t: TaskId)
    requires Awake(s, t)
    ensures Awake(MarkYield(s, y), t)
  {
  }

  // ------------------------------------------------------------------ the end of a suspension

  /** Every task noted during the suspension of the scheduler is ready when it ends. */
  lemma {:induction false} DrainReadies(s: K, t: TaskId)
    requires Core(s, s.clock.now + 1) && (t in s.ev.pending || IsReady(s.lists, t))
    ensures IsReady(DrainPending(s).lists, t)
    decreases |s.ev.pending|
  {
    hide Core, DrainOne;
    if s.ev.pending != [] {
      DrainOneExact(s);
      DrainOneReadies(s, t);
      DrainReadies(DrainOne(s), t);
    }
  }

  /** The first pending task becomes ready, and no other is touched. */
  lemma DrainOneOnly(s: K)
    requires Core(s, s.clock.now + 1) && s.ev.pending != []
    ensures OnlyReadies(s, DrainOne(s).(cpu := DrainOne(s).cpu.(yieldPending := s.cpu.yieldPending)), {s.ev.pending[0]})
    ensures Blocked(s.lists, s.ev.pending[0]) && s.ev.pending[0] in s.ev.at && s.ev.at[s.ev.pending[0]] == Pending
  {
    hide Core, ListsOk, EventsOk, Owned, Placed, Consistent, Configured, MakeReady;
    CoreParts(s, s.clock.now + 1);
    PendingKnown(s, s.ev.pending[0]);
    MakeReadyOnly(s, s.ev.pending[0]);
  }

  lemma DrainOneReadies(s: K, t: TaskId)
    requires Core(s, s.clock.now + 1) && s.ev.pending != [] && (t in s.ev.pending || IsReady(s.lists, t))
    ensures t in DrainOne(s).ev.pending || IsReady(DrainOne(s).lists, t)
  {
    hide Core, DrainOne;
    DrainOneOnly(s);
    DrainOneExact(s);
  }

  lemma ResumeAllReadies(s: K, t: TaskId)
    requires Inv(s) && s.clock.depth == 1 && t in s.ev.pending
    ensures IsReady(ResumeAll(s).lists, t)
  {
    hide Core, DrainPending, Replay;
    DrainKeepsCore(s);
    var d := s.(clock := s.clock.(depth := s.clock.depth - 1));
    DrainPendingKeeps(d);
    DrainReadies(d, t);
    ReplayWakesOnTime(DrainPending(d), s.clock.pended, t, 0);
  }

  // ------------------------------------------------------------------ nobody waits for a free mutex

  /** The tasks that the step, giving mutex `m`, wakes from its list. */
  ghost function WokenBy(s: K, op: Op, r: K, m: MutexId): set<TaskId>
    requires m in s.ev.waiting
  {
    if op == OnMutex(Give(m)) || op == OnMutex(GiveAgain(m)) then set t | t in s.ev.waiting[m] && Roused(r, t) else {}
  }

  /** The task that tries for mutex `m`. */
  function Tries(s: K, op: Op, m: MutexId): set<TaskId> {
    match op
    case OnMutex(TakeFree(k)) => if k == m then {s.cpu.current} else {}
    case OnMutex(TakeAgain(k)) => if k == m then {s.cpu.current} else {}
    case OnMutex(BlockOn(k, _)) => if k == m then {s.cpu.current} else {}
    case _ => {}
  }

  /** The tasks woken from the list of `m` that have not tried for it since. */
  ghost function Owed(states: seq<K>, ops: seq<Op>, m: MutexId, n: nat): set<TaskId>
    requires n <= |ops| < |states| && forall i :: 0 <= i < n ==> m in states[i].ev.waiting
  {
    if n == 0 then {} else
      Owed(states, ops, m, n - 1) - Tries(states[n - 1], ops[n - 1], m) + WokenBy(states[n - 1], ops[n - 1], states[n], m)
  }

  /** Tasks come to the waiting list of a mutex only by asking for it. */
  predicate ListOfMutex(op: Op, m: MutexId) {
    match op
    case OnWait(WaitOn(l, _)) => l != m
    case OnWait(WaitForBits(l, _, _)) => l != m
    case _ => true
  }

  ghost predicate Guarded(s: K, m: MutexId, owed: set<TaskId>) {
    && m in s.own.mutexes && m in s.ev.waiting
    && (s.own.mutexes[m].messages == 1 && s.ev.waiting[m] != [] ==> owed != {})
  }

  /** Any step other than a give of `m` leaves nobody on its list who was not there before, or leaves the mutex held. */
  lemma StepKeepsWaiters(s: K, op: Op, r: K, m: MutexId)
    requires Inv(s) && Next(s, op, r) && m in s.own.mutexes && m in s.ev.waiting && ListOfMutex(op, m)
    requires !(op.OnMutex? && op.x.BlockOn? && op.x.m == m)
    ensures ThinsAt(s, r, m)
  {
    hide Core, ClockStep, TaskStep, WaitStep, MutexStep, AllThin, ThinsAt, Joins, BlockOnMutex;
    match op
    case OnClock(c) => ClockStepThins(s, c, r); ThinAt(s, r, m);
    case OnTask(k) => TaskStepThins(s, k, r); ThinAt(s, r, m);
    case OnWait(w) => WaitStepLists(s, w, r, m);
    case OnMutex(x) =>
      if x.BlockOn? {
        BlockOnThins(s, x.m, x.ticks, r, m);
      } else {
        MutexStepThins(s, x, r);
        ThinAt(s, r, m);
      }
  }

  lemma BlockOnThins(s: K, k: MutexId, ticks: nat, r: K, m: MutexId)
    requires Inv(s) && MutexStep(s, BlockOn(k, ticks), r) && k != m && m in s.ev.waiting
    ensures ThinsAt(s, r, m)
  {
    hide Core, BlockOnMutex, Inherit, Thins, Joins;
    BlockOnLists(s, k, ticks, m);
  }

  lemma FreeAfter(s: K, op: Op, r: K, m: MutexId)
    requires Inv(s) && Next(s, op, r) && m in s.own.mutexes
    ensures m in r.own.mutexes
    ensures r.own.mutexes[m].messages == 1 ==> Tries(s, op, m) == {}
    ensures r.own.mutexes[m].messages == 1 && s.own.mutexes[m].messages != 1 ==>
      (op == OnMutex(Give(m)) || op == OnMutex(GiveAgain(m))) && s.own.mutexes[m].holder == Task(s.cpu.current)
        && m in s.ev.waiting && r == GiveMutex(s, m)
  {
    hide Core, ClockStep, TaskStep, WaitStep, BlockOnMutex, GiveMutex;
    StepMovesMutex(s, op, r, m);
    MutexFacts(s, m);
  }

  lemma StepGuards(s: K, op: Op, r: K, m: MutexId, owed: set<TaskId>)
    requires Inv(s) && Next(s, op, r) && ListOfMutex(op, m) && Guarded(s, m, owed)
    ensures Guarded(r, m, owed - Tries(s, op, m) + WokenBy(s, op, r, m))
  {
    hide Core, Next, GiveMutex, Roused, Thins, Tries;
    FreeAfter(s, op, r, m);
    if op.OnMutex? && op.x.BlockOn? && op.x.m == m {
      StepListsStay(s, op, r, m);
      TriesBlocked(s, op, m);
    } else {
      StepKeepsWaiters(s, op, r, m);
      ThinMembers(s, r, m);
      if r.own.mutexes[m].messages == 1 && r.ev.waiting[m] != [] {
        assert r.ev.waiting[m][0] in s.ev.waiting[m];
        if s.own.mutexes[m].messages != 1 {
          GiveWakesHead(s, m);
          assert s.ev.waiting[m][0] in WokenBy(s, op, r, m);
        }
      }
    }
  }

  lemma TriesBlocked(s: K, op: Op, m: MutexId)
    requires op.OnMutex? && op.x.BlockOn? && op.x.m == m
    ensures Tries(s, op, m) != {}
  {
    assert s.cpu.current in Tries(s, op, m);
  }

  lemma StepListsStay(s: K, op: Op, r: K, m: MutexId)
    requires Inv(s) && Next(s, op, r) && m in s.ev.waiting && op.OnMutex? && op.x.BlockOn? && op.x.m == m
    ensures m in r.ev.waiting
  {
    hide Core, ClockStep, TaskStep, WaitStep, BlockOnMutex, Inherit, ThinsAt;
    BlockOnLists(s, m, op.x.ticks, m);
  }

  /**
   Over every run: whenever a mutex is free and a task waits for it, some task has been woken from its list by a give
   and has not tried for the mutex since.  So with every woken task back, nobody waits for a free mutex.
   */
  lemma {:induction false} NobodyForgotten(states: seq<K>, ops: seq<Op>, m: MutexId, n: nat)
    requires IsRun(states, ops) && Inv(states[0]) && n < |states| && Guarded(states[0], m, {})
    requires forall i :: 0 <= i < n ==> ListOfMutex(ops[i], m)
    ensures forall i :: 0 <= i <= n ==> m in states[i].ev.waiting
    ensures Guarded(states[n], m, Owed(states, ops, m, n))
  {
    hide Inv, Next, ListOfMutex, Roused, WokenBy;
    if n > 0 {
      NobodyForgotten(states, ops, m, n - 1);
      RunKeeps(states, ops, n - 1);
      assert Step(states[n - 1], ops[n - 1], states[n]);
      StepGuards(states[n - 1], ops[n - 1], states[n], m, Owed(states, ops, m, n - 1));
    }
  }
}

/**
 Preemption: whenever a ready task has a higher priority than the running one, a context switch has been asked for,
 but for one case in which a mutex is given.
 */
module KernelPreemption {
  import opened Sequences
  import opened StateLists
  import opened EventItems
  import opened Ownership
  import opened KernelSpec
  import opened KernelOps
  import opened KernelOwnership
  import opened KernelMutex
  import opened KernelRuns
  import opened KernelTicks
  import opened KernelTime
  import opened KernelPriority
  import opened KernelWaiting
  import opened KernelWaking
  import opened KernelSuspended

  /** Task `t` is ready and has a higher priority than the running one. */
  predicate Outranks(s: K, t: TaskId) {
    IsReady(s.lists, t) && t in s.prio && s.cpu.current in s.prio && s.prio[t] > s.prio[s.cpu.current]
  }

  // ------------------------------------------------------------------ what asks for a switch

  /** Whether the call ends by yielding, or by telling its caller, an interrupt, to. */
  predicate TaskAsks(s: K, op: TaskOp) {
    s.cpu.current in s.prio &&
    match op
    case CreateTask(_, p) => p > s.prio[s.cpu.current]
    case DeleteTask(t) => t == s.cpu.current
    case IdleCleanUp => false
    case SuspendTask(t) => t == s.cpu.current
    case ResumeTask(t) => t != s.cpu.current && IsSuspended(s, t) && t in s.prio && s.prio[t] >= s.prio[s.cpu.current]
    case ResumeTaskFromISR(t) =>
      IsSuspended(s, t) && s.clock.depth == 0 && t in s.prio && s.prio[t] >= s.prio[s.cpu.current]
    case SetTaskPriority(t, p) =>
      t in s.own.base && s.own.base[t] != p
      && if p > s.own.base[t] then t != s.cpu.current && p >= s.prio[s.cpu.current] else t == s.cpu.current
  }

  /** `xTaskPriorityDisinherit` returns true: the running task's last mutex goes, and an inherited priority with it. */
  predicate Disinherits(s: K) {
    var t := s.cpu.current;
    t in s.prio && t in s.own.base && t in s.own.held && s.prio[t] != s.own.base[t] && s.own.held[t] == 1
  }

  /** The running task gives mutex `m` for good: it holds it, by its last take if it is recursive. */
  predicate Gives(s: K, op: Op, m: MutexId) {
    && (op == OnMutex(Give(m)) || op == OnMutex(GiveAgain(m))) && m in s.own.mutexes && m in s.ev.waiting
    && IsReady(s.lists, s.cpu.current) && s.own.mutexes[m].holder == Task(s.cpu.current)
    && (op == OnMutex(GiveAgain(m)) ==> s.own.mutexes[m].count <= 1)
  }

  predicate MutexAsks(s: K, op: MutexOp) {
    match op
    case BlockOn(_, _) => true
    case Give(m) => Gives(s, OnMutex(op), m) && s.ev.waiting[m] == [] && Disinherits(s)
    case GiveAgain(m) => Gives(s, OnMutex(op), m) && s.ev.waiting[m] == [] && Disinherits(s)
    case _ => false
  }

  /** `xYieldPending` comes on top of this; blocking calls always yield. */
  ghost predicate Asks(s: K, op: Op)
    requires Inv(s)
  {
    match op
    case OnClock(c) => c == TickInterrupt && s.clock.depth == 0 && TickSwitches(s)
    case OnTask(k) => TaskAsks(s, k)
    case OnWait(w) => w.DelayFor? || w.WaitOn? || w.WaitForBits?
    case OnMutex(x) => MutexAsks(s, x)
  }

  // ------------------------------------------------------------------ ticks and the end of a suspension

  /** If `t` outranks the running task afterwards it did so before, or a switch is pending. */
  ghost predicate Prompts(s: K, r: K, t: TaskId) {
    && (s.cpu.yieldPending ==> r.cpu.yieldPending)
    && (Outranks(r, t) ==> Outranks(s, t) || r.cpu.yieldPending)
  }

  lemma TickPrompts(s: K, t: TaskId)
    requires Core(s, s.clock.now + 1)
    ensures TickNow(s).cpu.yieldPending == s.cpu.yieldPending
    ensures Outranks(TickNow(s), t) ==> Outranks(s, t) || TickSwitches(s)
  {
    hide Core, TickNow;
    DelayedHaveTimes(s, s.clock.now + 1);
    TickNowExact(s);
    if Outranks(TickNow(s), t) && !Outranks(s, t) {
      assert t in Due(s, s.clock.now + 1);
      assert WakesRival(s);
    }
  }

  /** After the tick, a ready task other than the running one has at least its priority. */
  ghost predicate HasRival(s: K, r: K) {
    exists t :: t != s.cpu.current && IsReady(r.lists, t) && t in s.prio && s.cpu.current in s.prio && s.prio[t] >= s.prio[s.cpu.current]
  }

  /** After the tick, task `t` is ready at the running task's priority. */
  predicate Shares(s: K, r: K, t: TaskId) {
    IsReady(r.lists, t) && t in s.prio && s.cpu.current in s.prio && s.prio[t] == s.prio[s.cpu.current]
  }

  /** Time slicing: a tick asks for a switch only for a rival's sake, and always if one shares the running task's priority. */
  lemma TickAsksRightly(s: K)
    requires Core(s, s.clock.now + 1) && IsReady(s.lists, s.cpu.current)
    ensures TickSwitches(s) ==> s.cpu.yieldPending || HasRival(s, TickNow(s))
    ensures forall t :: t != s.cpu.current && Shares(s, TickNow(s), t) ==> TickSwitches(s)
  {
    hide Core, TickNow, WakesRival, HasRival, Shares, OnlyReadies, IsReady, Due;
    CurrentKnown(s);
    ReadyKnown(s, s.cpu.current, s.clock.now + 1);
    TickKeepsReady(s, s.cpu.current);
    TickSame(s);
    if WakesRival(s) { RivalRises(s); }
    MatesMatter(s, TickNow(s));
  }

  lemma CurrentKnown(s: K)
    requires Core(s, s.clock.now + 1)
    ensures s.cpu.current in s.prio && forall t :: t in s.lists.delayed ==> t in s.prio
  {
  }

  lemma TickSame(s: K)
    requires Core(s, s.clock.now + 1)
    ensures var r := TickNow(s);
      Core(r, r.clock.now + 1) && r.prio == s.prio && r.cpu.current == s.cpu.current
  {
    hide Core, TickNow;
    DelayedHaveTimes(s, s.clock.now + 1);
    TickNowExact(s);
  }

  lemma RivalRises(s: K)
    requires Core(s, s.clock.now + 1) && IsReady(s.lists, s.cpu.current) && WakesRival(s)
    ensures HasRival(s, TickNow(s))
  {
    hide Core, TickNow;
    CurrentKnown(s);
    ReadyKnown(s, s.cpu.current, s.clock.now + 1);
    TickNowExact(s);
    var t :| t in s.lists.delayed && s.wake[t] <= s.clock.now + 1 && s.prio[t] >= s.prio[s.cpu.current];
    DelayedKnown(s, t, s.clock.now + 1);
    assert t in Due(s, s.clock.now + 1);
    assert t != s.cpu.current && IsReady(TickNow(s).lists, t);
  }

  /** The running task has company in its ready list exactly when another task shares its priority. */
  lemma MatesMatter(s: K, r: K)
    requires Core(r, r.clock.now + 1) && IsReady(r.lists, s.cpu.current) && r.prio == s.prio && s.cpu.current in s.prio
    ensures s.prio[s.cpu.current] < |r.lists.ready|
    ensures |r.lists.ready[s.prio[s.cpu.current]].items| > 1 ==> HasRival(s, r)
    ensures forall t :: t != s.cpu.current && Shares(s, r, t) ==> |r.lists.ready[s.prio[s.cpu.current]].items| > 1
  {
    hide Core, Placed, ListsOk, EventsOk, Owned, Consistent, Configured;
    var c := s.cpu.current;
    CoreParts(r, r.clock.now + 1);
    AtOwnPriority(r, c);
    Mates(r.lists, s.prio[c], c);
    if |r.lists.ready[s.prio[c]].items| > 1 {
      var t :| t != c && InReady(r.lists, t, s.prio[c]);
      AtOwnPriority(r, t);
    }
    forall t | t != c && Shares(s, r, t) ensures InReady(r.lists, t, s.prio[c]) {
      AtOwnPriority(r, t);
    }
  }

  lemma AtOwnPriority(r: K, t: TaskId)
    requires Core(r, r.clock.now + 1) && IsReady(r.lists, t)
    ensures t in r.prio && InReady(r.lists, t, r.prio[t])
  {
  }

  predicate InReady(l: Lists, t: TaskId, p: nat) {
    t in l.at && l.at[t] == Ready(p)
  }

  lemma Mates(l: Lists, p: nat, c: TaskId)
    requires Placed(l) && p < |l.ready| && InReady(l, c, p)
    ensures |l.ready[p].items| > 1 <==> exists t :: t != c && InReady(l, t, p)
  {
    var items := l.ready[p].items;
    assert Holds(items, l.at, Ready(p)) && c in items;
    if |items| > 1 {
      var t := if items[0] == c then items[1] else items[0];
      assert t in items && t != c && InReady(l, t, p);
    }
    if t :| t != c && InReady(l, t, p) {
      assert t in items;
    }
  }

  lemma {:induction false} ReplayPrompts(s: K, k: nat, t: TaskId)
    requires Core(s, s.clock.now + 1) && s.ev.pending == []
    ensures Prompts(s, Replay(s, k), t)
    decreases k
  {
    hide Core, TickNow, TickSwitches;
    if k > 0 {
      ReplayTickReplayed(s);
      TickPrompts(s, t);
      ReplayPrompts(ReplayTick(s), k - 1, t);
    }
  }

  lemma DrainOnePrompts(s: K, t: TaskId)
    requires Core(s, s.clock.now + 1) && s.ev.pending != []
    ensures Prompts(s, DrainOne(s), t)
  {
    hide Core, DrainOne;
    DrainOneOnly(s);
    DrainOneYields(s);
  }

  lemma DrainOneYields(s: K)
    requires Core(s, s.clock.now + 1) && s.ev.pending != []
    ensures s.ev.pending[0] in s.prio && s.cpu.current in s.prio
    ensures DrainOne(s).cpu.yieldPending == (s.cpu.yieldPending || s.prio[s.ev.pending[0]] >= s.prio[s.cpu.current])
  {
    hide Core, ToReady;
    CoreParts(s, s.clock.now + 1);
    PendingKnown(s, s.ev.pending[0]);
  }

  lemma {:induction false} DrainPrompts(s: K, t: TaskId)
    requires Core(s, s.clock.now + 1)
    ensures Prompts(s, DrainPending(s), t)
    decreases |s.ev.pending|
  {
    hide Core, DrainOne, Outranks;
    if s.ev.pending != [] {
      DrainOneExact(s);
      DrainOnePrompts(s, t);
      DrainPrompts(DrainOne(s), t);
    }
  }

  lemma ResumeAllPrompts(s: K, t: TaskId)
    requires Inv(s) && s.clock.depth > 0
    ensures Prompts(s, ResumeAll(s), t)
  {
    hide Core, DrainPending, Replay;
    DrainKeepsCore(s);
    var d := s.(clock := s.clock.(depth := s.clock.depth - 1));
    if d.clock.depth == 0 {
      DrainPendingKeeps(d);
      DrainPrompts(d, t);
      ReplayPrompts(DrainPending(d), s.clock.pended, t);
    }
  }

  // ------------------------------------------------------------------ the other steps

  lemma MakeReadyPrompts(s: K, x: TaskId, y: bool, t: TaskId)
    requires Placed(s.lists) && x in s.lists.at && Consistent(s.ev) && x in s.ev.at && x in s.prio && s.prio[x] < |s.lists.ready|
    requires Outranks(MarkYield(MakeReady(s, x), y), t)
    ensures Outranks(s, t) || (t == x && s.cpu.current in s.prio && s.prio[x] > s.prio[s.cpu.current])
  {
    hide Placed, Consistent, MakeReady;
    MakeReadyOnly(s, x);
  }

  lemma WakeHeadPrompts(s: K, l: ListId, t: TaskId)
    requires Inv(s) && l in s.ev.waiting && s.ev.waiting[l] != []
    ensures Prompts(s, WakeHead(s, l), t)
  {
    hide Core, MakeReady, Defer, Placed, Consistent;
    CurrentParts(s);
    var x := s.ev.waiting[l][0];
    WaiterKnown(s, l, x, s.clock.now + 1);
    BlockedParts(s, x);
    if s.clock.depth == 0 {
      if Outranks(WakeHead(s, l), t) { MakeReadyPrompts(s, x, s.prio[x] > s.prio[s.cpu.current], t); }
      MakeReadyOnly(s, x);
    }
  }

  lemma AnswerPrompts(s: K, x: TaskId, v: nat, t: TaskId)
    requires Inv(s) && x in s.ev.at && s.ev.at[x].On?
    ensures Prompts(s, WakeUnordered(s, x, v), t)
  {
    hide Inv, MakeReady, Placed, Consistent;
    WaiterParts(s, x);
    SetValueConsistent(s.ev, x, v + s.cfg.inUse);
    var m := s.(ev := SetValue(s.ev, x, v + s.cfg.inUse));
    MakeReadyOnly(m, x);
    if Outranks(WakeUnordered(s, x, v), t) { MakeReadyPrompts(m, x, s.prio[x] > s.prio[s.cpu.current], t); }
  }

  lemma WaitStepPrompts(s: K, op: WaitOp, r: K, t: TaskId)
    requires Inv(s) && WaitStep(s, op, r) && !Asks(s, OnWait(op))
    ensures Prompts(s, r, t)
  {
    hide Core, WakeHead, WakeUnordered, Delay, PlaceOnEventList, PlaceOnUnordered;
    match op
    case WakeFrom(l) => WakeHeadPrompts(s, l, t);
    case WakeWaiter(x, v) => AnswerPrompts(s, x, v, t);
    case _ =>
  }

  lemma RepricedPrompts(s: K, o: Own, ev: Events, x: TaskId, p: nat, t: TaskId)
    requires Inv(s) && x in s.prio && p < s.cfg.P && Outranks(Repriced(s, o, ev, x, p), t)
    ensures t == x || x == s.cpu.current || Outranks(s, t)
    ensures t == x ==> s.cpu.current in s.prio && x != s.cpu.current && p > s.prio[s.cpu.current] && IsReady(s.lists, t)
    ensures IsReady(s.lists, t) && t in s.prio
    ensures x == s.cpu.current ==> t != x && s.prio[t] > p
  {
    hide Inv, Placed, Consistent, ListsOk, EventsOk, Owned, Configured, MoveLists;
    InvParts(s);
    MoveListsPlaced(s.lists, x, p);
  }

  lemma PrioritySetPrompts(s: K, x: TaskId, p: nat, t: TaskId)
    requires Inv(s) && x in s.prio && p < s.cfg.P && Outranks(PrioritySet(s, x, p), t)
    ensures Outranks(s, t) || TaskAsks(s, SetTaskPriority(x, p))
  {
    hide Core, Repriced, SetFreeValue, Rebased;
    CurrentParts(s);
    TaskKnown(s, x);
    if s.own.base[x] != p {
      var q := if s.own.base[x] == s.prio[x] then p else s.prio[x];
      RepricedPrompts(s, Rebased(s.own, x, p), SetFreeValue(s.cfg, s.ev, x, s.cfg.P - p), x, q, t);
    }
  }

  lemma TaskStepYield(s: K, op: TaskOp, r: K)
    requires Inv(s) && TaskStep(s, op, r)
    ensures r.cpu.yieldPending == s.cpu.yieldPending
  {
    hide Core, CreateLists, SuspendLists, ToReady, TerminateLists, ForgetLists, ForgetEvents, MoveLists, SetFreeValue;
  }

  lemma TaskStepPrompts(s: K, op: TaskOp, r: K, t: TaskId)
    requires Inv(s) && TaskStep(s, op, r) && Outranks(r, t)
    ensures Outranks(s, t) || TaskAsks(s, op)
  {
    hide Inv, Outranks, TaskAsks, KernelOps.Create, Suspend, Delete, Forget, Resume, ResumeFromISR, PrioritySet;
    match op
    case CreateTask(x, p) => CreatePrompts(s, x, p, t);
    case DeleteTask(x) => DeletePrompts(s, x, t);
    case IdleCleanUp =>
      CleanUpFirst(s);
      ForgetPrompts(s, s.lists.termination[0], t);
    case SuspendTask(x) => SuspendPrompts(s, x, t);
    case ResumeTask(x) => ResumePrompts(s, x, t);
    case ResumeTaskFromISR(x) => ResumePrompts(s, x, t);
    case SetTaskPriority(x, p) => PrioritySetPrompts(s, x, p, t);
  }

  lemma CreatePrompts(s: K, x: TaskId, p: nat, t: TaskId)
    requires Inv(s) && x !in s.prio && p < s.cfg.P && Outranks(KernelOps.Create(s, x, p), t)
    ensures Outranks(s, t) || TaskAsks(s, CreateTask(x, p))
  {
    hide Core, KernelOps.Create;
    CurrentParts(s);
    CreateFacts(s, x, p);
  }

  lemma ForgetPrompts(s: K, x: TaskId, t: TaskId)
    requires Inv(s) && MayForget(s, x)
    ensures s.tasks > 0 && (s.lists.at[x] == Termination ==> s.cleanUp > 0)
    ensures Outranks(Forget(s, x), t) ==> Outranks(s, t)
  {
    hide Inv, ForgetLists, ForgetEvents, ListsOk, EventsOk, Owned, Placed, Consistent, Configured;
    InvParts(s);
    ForgetKeeps(s, x);
    ForgetListsOk(s.lists, s.prio, s.wake, s.cpu, s.clock.now + 1, s.clock.now + s.cfg.M, x);
  }

  lemma DeletePrompts(s: K, x: TaskId, t: TaskId)
    requires Inv(s) && MayDelete(s, x) && Outranks(Delete(s, x), t)
    ensures Outranks(s, t) || TaskAsks(s, DeleteTask(x))
  {
    hide Core, DeleteSelf, Forget;
    CurrentParts(s);
    if x != s.cpu.current {
      DeletableOther(s, x);
      ForgetPrompts(s, x, t);
    }
  }

  lemma SuspendPrompts(s: K, x: TaskId, t: TaskId)
    requires Inv(s) && Live(s, x) && x != s.cpu.idle && Outranks(Suspend(s, x), t)
    ensures Outranks(s, t)
  {
    hide Inv, SuspendLists, ListsOk, EventsOk, Owned, Placed, Consistent, Configured;
    InvParts(s);
    SuspendListsOk(s.lists, s.prio, s.wake, s.cpu, s.clock.now + 1, s.clock.now + s.cfg.M, x);
  }

  lemma ResumePrompts(s: K, x: TaskId, t: TaskId)
    requires Inv(s)
    ensures Outranks(Resume(s, x), t) ==> Outranks(s, t) || TaskAsks(s, ResumeTask(x))
    ensures Outranks(ResumeFromISR(s, x), t) ==> Outranks(s, t) || TaskAsks(s, ResumeTaskFromISR(x))
  {
    hide Core, MakeReady, Defer, Placed, Consistent;
    CurrentParts(s);
    if IsSuspended(s, x) {
      BlockedParts(s, x);
      MakeReadyOnly(s, x);
    }
  }

  lemma ClockStepPrompts(s: K, op: ClockOp, r: K, t: TaskId)
    requires Inv(s) && ClockStep(s, op, r) && !Switches(s, OnClock(op))
    ensures s.cpu.yieldPending ==> r.cpu.yieldPending
    ensures Outranks(r, t) ==> Outranks(s, t) || r.cpu.yieldPending || Asks(s, OnClock(op))
  {
    hide Core, TickNow, TickSwitches, ResumeAll;
    match op
    case TickInterrupt => if s.clock.depth == 0 { TickPrompts(s, t); }
    case EnableAll => ResumeAllPrompts(s, t);
    case _ =>
  }

  // ------------------------------------------------------------------ giving a mutex

  /** Task `t` is ready and above the base priority of the running one. */
  predicate AboveBaseOf(s: K, t: TaskId) {
    IsReady(s.lists, t) && t in s.prio && t != s.cpu.current && s.cpu.current in s.own.base && s.prio[t] > s.own.base[s.cpu.current]
  }

  lemma GiveBackPrompts(s: K, m: MutexId, t: TaskId)
    requires Inv(s) && m in s.own.mutexes && s.own.mutexes[m].holder == Task(s.cpu.current)
    ensures GiveBack(s, m).cpu.yieldPending == s.cpu.yieldPending
    ensures Outranks(GiveBack(s, m), t) ==>
      Outranks(s, t) || (Disinherits(s) && AboveBaseOf(s, t))
  {
    hide Core, Repriced, Release;
    HolderFacts(s, m);
    ReleasedCount(s.own, s.cpu.current, m);
    if Disinherits(s) && Outranks(GiveBack(s, m), t) {
      var c := s.cpu.current;
      RepricedPrompts(s, Release(s.own, c, m), SetValue(s.ev, c, s.cfg.P - s.own.base[c]), c, s.own.base[c], t);
    }
    RepricedYield(s, Release(s.own, s.cpu.current, m), SetValue(s.ev, s.cpu.current, s.cfg.P - s.own.base[s.cpu.current]),
                  s.cpu.current, s.own.base[s.cpu.current]);
  }

  lemma ReleasedCount(o: Own, t: TaskId, m: MutexId)
    requires m in o.mutexes && t in o.held && o.held[t] > 0
    ensures t in Release(o, t, m).held && Release(o, t, m).held[t] == o.held[t] - 1
  {
  }

  lemma RepricedYield(s: K, o: Own, ev: Events, x: TaskId, p: nat)
    requires Inv(s) && x in s.prio && p < s.cfg.P
    ensures Repriced(s, o, ev, x, p).cpu.yieldPending == s.cpu.yieldPending
  {
    hide Core, MoveLists;
  }

  /**
   The running task falls back to its base priority with a waiter on the list that it does not outrank then, while some
   ready task does outrank it: `xQueueGenericSend` looks at the waiter only, and the yield that the fall asks for is lost.
   */
  ghost predicate Silent(s: K, op: Op) {
    exists m, t :: Gives(s, op, m) && Overlooked(s, m, t)
  }

  predicate Overlooked(s: K, m: MutexId, t: TaskId) {
    && Disinherits(s) && m in s.ev.waiting && s.ev.waiting[m] != [] && s.ev.waiting[m][0] in s.prio
    && s.prio[s.ev.waiting[m][0]] <= s.own.base[s.cpu.current]
    && AboveBaseOf(s, t)
  }

  lemma GivePrompts(s: K, op: Op, m: MutexId, t: TaskId)
    requires Inv(s) && Gives(s, op, m) && !Overlooked(s, m, t)
    ensures s.cpu.yieldPending ==> GiveMutex(s, m).cpu.yieldPending
    ensures Outranks(GiveMutex(s, m), t) ==>
      Outranks(s, t) || GiveMutex(s, m).cpu.yieldPending || (s.ev.waiting[m] == [] && Disinherits(s))
  {
    hide Core, GiveBack, WakeHead, Outranks;
    CurrentParts(s);
    GiveBackKeeps(s, m);
    GiveBackFrame(s, m);
    GiveBackPrompts(s, m, t);
    var r := GiveBack(s, m);
    if r.ev.waiting[m] != [] {
      WakeHeadPrompts(r, m, t);
      WakeHeadYields(r, m);
      GiveBackPrio(s, m);
      WaiterKnown(s, m, s.ev.waiting[m][0], s.clock.now + 1);
    }
  }

  /** A switch is pending after a wake if it was before, or the woken task is above the running one. */
  lemma WakeHeadYields(s: K, l: ListId)
    requires Inv(s) && l in s.ev.waiting && s.ev.waiting[l] != []
    ensures s.ev.waiting[l][0] in s.prio && s.cpu.current in s.prio
    ensures WakeHead(s, l).cpu.yieldPending == (s.cpu.yieldPending || s.prio[s.ev.waiting[l][0]] > s.prio[s.cpu.current])
  {
    hide Core, ToReady, Defer;
    CurrentParts(s);
    WaiterKnown(s, l, s.ev.waiting[l][0], s.clock.now + 1);
  }

  lemma MutexStepPrompts(s: K, op: MutexOp, r: K, t: TaskId)
    requires Inv(s) && MutexStep(s, op, r) && !Silent(s, OnMutex(op)) && !op.BlockOn?
    ensures s.cpu.yieldPending ==> r.cpu.yieldPending
    ensures Outranks(r, t) ==> Outranks(s, t) || r.cpu.yieldPending || MutexAsks(s, op)
  {
    hide Core, GiveMutex, BlockOnMutex, Take, Overlooked;
    match op
    case Give(m) =>
      MutexFacts(s, m);
      if s.own.mutexes[m].messages != 1 { GivePrompts(s, OnMutex(op), m, t); }
    case GiveAgain(m) =>
      if s.own.mutexes[m].holder == Task(s.cpu.current) && s.own.mutexes[m].count <= 1 { GivePrompts(s, OnMutex(op), m, t); }
    case _ =>
  }

  lemma BlockOnYield(s: K, m: MutexId, ticks: nat)
    requires Inv(s) && IsReady(s.lists, s.cpu.current) && m in s.own.mutexes && s.own.mutexes[m].messages == 0 && m in s.ev.waiting
    ensures BlockOnMutex(s, m, ticks).cpu.yieldPending == s.cpu.yieldPending
  {
    hide Core, MoveLists, BlockLists, InsertSorted, SetFreeValue;
    HeldMutex(s, m);
    InheritKeeps(s, s.own.mutexes[m].holder.id);
    InheritFrame(s, s.own.mutexes[m].holder.id);
  }

  lemma WaitStepYield(s: K, op: WaitOp, r: K)
    requires Inv(s) && WaitStep(s, op, r) && Asks(s, OnWait(op))
    ensures r.cpu.yieldPending == s.cpu.yieldPending
  {
    hide Core, BlockLists, InsertSorted, Append;
  }

  // ------------------------------------------------------------------ every step, and over runs

  lemma StepPrompts(s: K, op: Op, r: K, t: TaskId)
    requires Inv(s) && Next(s, op, r) && !Switches(s, op) && !Silent(s, op)
    ensures s.cpu.yieldPending ==> r.cpu.yieldPending
    ensures Outranks(r, t) ==> Outranks(s, t) || r.cpu.yieldPending || Asks(s, op)
  {
    hide Core, ClockStep, TaskStep, WaitStep, TickSwitches, BlockOnMutex, GiveMutex, Outranks, Silent, TaskAsks;
    match op
    case OnClock(c) => ClockStepPrompts(s, c, r, t);
    case OnTask(k) =>
      TaskStepYield(s, k, r);
      if Outranks(r, t) { TaskStepPrompts(s, k, r, t); }
    case OnWait(w) => if Asks(s, op) { WaitStepYield(s, w, r); } else { WaitStepPrompts(s, w, r, t); }
    case OnMutex(x) => if x.BlockOn? { BlockOnYield(s, x.m, x.ticks); } else { MutexStepPrompts(s, x, r, t); }
  }

  /** A switch that comes while the scheduler is suspended is remembered, and nothing else happens. */
  lemma SwitchWaits(s: K, op: Op, r: K)
    requires Inv(s) && Next(s, op, r) && op == OnClock(Switch) && s.clock.depth > 0
    ensures r.cpu.yieldPending && r == s.(cpu := s.cpu.(yieldPending := r.cpu.yieldPending))
  {
    hide Core;
  }

  /** After a switch nothing outranks the task it has chosen. */
  lemma SwitchSettles(s: K, op: Op, r: K, t: TaskId)
    requires Inv(s) && Next(s, op, r) && Switches(s, op)
    ensures !Outranks(r, t)
  {
    hide Core, HighestFrom, RingNext, RingCurrent;
    if IsReady(s.lists, t) { SwitchFacts(s, t); } else { SwitchKeepsPlaces(s); }
  }

  lemma SwitchKeepsPlaces(s: K)
    requires Inv(s) && s.clock.depth == 0
    ensures SwitchContext(s).lists.at == s.lists.at
  {
    hide Core, HighestFrom, RingNext, RingCurrent;
  }

  /** A switch has been asked for since the last one. */
  ghost predicate Asked(states: seq<K>, ops: seq<Op>, n: nat)
    requires n <= |ops| < |states| && forall i :: 0 <= i < n ==> Inv(states[i])
  {
    n > 0 && !Switches(states[n - 1], ops[n - 1]) && (Asked(states, ops, n - 1) || Asks(states[n - 1], ops[n - 1]))
  }

  /**
   Over every run: if a ready task outranks the running one, a switch is pending or has been asked for since the last
   one, as long as no mutex is given silently.
   */
  lemma {:induction false} NobodyOutranksUnasked(states: seq<K>, ops: seq<Op>, n: nat)
    requires IsRun(states, ops) && Inv(states[0]) && n < |states| && (forall t :: !Outranks(states[0], t))
    requires forall i :: 0 <= i < n ==> !Silent(states[i], ops[i])
    ensures forall i :: 0 <= i <= n ==> Inv(states[i])
    ensures forall t :: Outranks(states[n], t) ==> states[n].cpu.yieldPending || Asked(states, ops, n)
  {
    hide Inv, Next, Outranks, Silent, Asks, Switches;
    forall i | 0 <= i <= n ensures Inv(states[i]) {
      RunKeeps(states, ops, i);
    }
    if n > 0 {
      var s, op, r := states[n - 1], ops[n - 1], states[n];
      NobodyOutranksUnasked(states, ops, n - 1);
      assert Step(s, op, r);
      forall t | Outranks(r, t) ensures r.cpu.yieldPending || Asked(states, ops, n) {
        if Switches(s, op) { SwitchSettles(s, op, r, t); } else { StepPrompts(s, op, r, t); }
      }
    }
  }

  /** The exception is exact: in that case, and no other, a give lets a task outrank the giver with no switch asked for. */
  lemma SilentExactly(s: K, op: Op, m: MutexId, r: K, t: TaskId)
    requires Inv(s) && Next(s, op, r) && Gives(s, op, m) && !Outranks(s, t) && !s.cpu.yieldPending
    ensures Outranks(r, t) && !r.cpu.yieldPending && !Asks(s, op) <==>
      Overlooked(s, m, t)
  {
    hide Core, ClockStep, TaskStep, WaitStep, GiveMutex, BlockOnMutex;
    GivesIs(s, op, m, r);
    if Overlooked(s, m, t) {
      OverlookedOutranks(s, op, m, t);
    } else {
      GivePrompts(s, op, m, t);
    }
  }

  lemma GivesIs(s: K, op: Op, m: MutexId, r: K)
    requires Inv(s) && Next(s, op, r) && Gives(s, op, m)
    ensures r == GiveMutex(s, m)
  {
    hide Core, GiveMutex, BlockOnMutex, ClockStep, TaskStep, WaitStep;
    MutexFacts(s, m);
  }

  lemma OverlookedOutranks(s: K, op: Op, m: MutexId, t: TaskId)
    requires Inv(s) && Gives(s, op, m) && Overlooked(s, m, t) && !s.cpu.yieldPending
    ensures Outranks(GiveMutex(s, m), t) && !GiveMutex(s, m).cpu.yieldPending
  {
    hide Core, GiveBack, WakeHead;
    GiveBackKeeps(s, m);
    GiveBackFrame(s, m);
    GiveBackPrompts(s, m, t);
    GiveBackPrio(s, m);
    WakeHeadYields(GiveBack(s, m), m);
    StillReady(s, m, t);
  }

  /** Giving readies a waiter and moves the giver; whoever else was ready stays so. */
  lemma StillReady(s: K, m: MutexId, t: TaskId)
    requires Inv(s) && m in s.own.mutexes && s.own.mutexes[m].holder == Task(s.cpu.current) && m in s.ev.waiting
    requires s.ev.waiting[m] != [] && IsReady(s.lists, t)
    ensures IsReady(GiveMutex(s, m).lists, t) && GiveMutex(s, m).prio == GiveBack(s, m).prio
    ensures GiveMutex(s, m).cpu.current == s.cpu.current
  {
    hide Core, GiveBack, MakeReady, Defer, Placed, Consistent;
    GiveBackKeeps(s, m);
    GiveBackFrame(s, m);
    GiveBackReady(s, m, t);
    var r := GiveBack(s, m);
    var x := r.ev.waiting[m][0];
    WaiterKnown(r, m, x, r.clock.now + 1);
    BlockedParts(r, x);
    MakeReadyOnly(r, x);
  }

  lemma GiveBackReady(s: K, m: MutexId, t: TaskId)
    requires Inv(s) && m in s.own.mutexes && s.own.mutexes[m].holder == Task(s.cpu.current) && IsReady(s.lists, t)
    ensures IsReady(GiveBack(s, m).lists, t)
  {
    hide Inv, Placed, Consistent, ListsOk, EventsOk, Owned, Configured, MoveLists;
    InvParts(s);
    HolderFacts(s, m);
    MoveListsPlaced(s.lists, s.cpu.current, s.own.base[s.cpu.current]);
  }

  // ------------------------------------------------------------------ the exception can be reached

  /** Task 1, of base priority 1, runs at the priority 3 it inherits from task 2, which waits for its only mutex. */
  ghost predicate Inheriting(s: K) {
    && Inv(s) && s.clock.depth == 0 && s.cpu.idle == 0 && s.cfg.P >= 5 && s.prio.Keys == {0, 1, 2} && s.prio[0] == 0 && s.prio[1] == 3
    && 1 in s.own.base && s.own.base[1] == 1 && 1 in s.own.held && s.own.held[1] == 1 && 2 in s.own.base && s.own.base[2] == 3
    && 0 in s.own.mutexes && s.own.mutexes[0] == Mutex(0, Task(1), false, 0)
    && IsReady(s.lists, 1) && 2 in s.lists.at && s.lists.at[2] == Delayed && 0 in s.ev.waiting && s.ev.waiting[0] == [2]
  }

  lemma WaiterComes(s: K) returns (r: K)
    requires Contended(s) && s.cfg.P >= 5
    ensures Step(s, OnMutex(BlockOn(0, 1)), r) && Inheriting(r) && r.prio[2] == 3
  {
    hide Core, BlockOnMutex, Inherit, ThinsAt;
    HasTicks(s);
    TicksAreMany(s);
    r := BlockOnMutex(s, 0, 1);
    BlockOnMutexKeeps(s, 0, 1);
    WaiterRaisesHolder(s);
    InheritedAll(s);
    BlockOnMutexStartsSleep(s, 0, 1);
    BlockOnLists(s, 0, 1, 0);
  }

  lemma TicksAreMany(s: K)
    requires Inv(s) && s.cfg.P >= 5
    ensures 2 != s.cfg.M
  {
  }

  lemma InheritedAll(s: K)
    requires Contended(s)
    ensures var r := BlockOnMutex(s, 0, 1);
      r.prio == s.prio[1 := 3] && r.clock == s.clock
  {
    hide Inv, PlaceOnEventList, Inherit;
    InheritedPriority(s);
    HeldMutex(s, 0);
    InheritKeeps(s, 1);
    InheritFrame(s, 1);
    BlockedFrame(Inherit(s, 1));
    PlacedClock(Inherit(s, 1));
  }

  lemma PlacedClock(s: K)
    requires Inv(s) && IsReady(s.lists, s.cpu.current) && 0 in s.ev.waiting
    ensures PlaceOnEventList(s, 0, 1).clock == s.clock
  {
    hide Core, BlockLists, InsertSorted;
  }

  /** The holder runs, the waiter's priority is lowered to 1, and a task of priority 2 is created. */
  lemma RivalComes(s: K) returns (q: K, r: K, x: K)
    requires Inheriting(s) && s.prio[2] == 3
    ensures Step(s, OnClock(Switch), q) && Step(q, OnTask(SetTaskPriority(2, 1)), r) && Step(r, OnTask(CreateTask(3, 2)), x)
    ensures Inv(x) && x.cpu.current == 1 && x.cpu.idle == 0 && IsReady(x.lists, 1) && !x.cpu.yieldPending && Overlooked(x, 0, 3)
    ensures 0 in x.own.mutexes && x.own.mutexes[0] == Mutex(0, Task(1), false, 0) && 0 in x.ev.waiting
  {
    hide Core, SwitchContext, PrioritySet, KernelOps.Create;
    q := SwitchContext(s);
    SwitchFacts(s, 1);
    SwitchClears(s);
    assert q.cpu.current == 1;
    r := PrioritySet(q, 2, 1);
    PrioritySetKeeps(q, 2, 1);
    WaiterLowered(q);
    TaskStepYield(q, SetTaskPriority(2, 1), r);
    x := KernelOps.Create(r, 3, 2);
    CreateFacts(r, 3, 2);
    TaskStepYield(r, CreateTask(3, 2), x);
  }

  lemma SwitchClears(s: K)
    requires Inv(s) && s.clock.depth == 0
    ensures !SwitchContext(s).cpu.yieldPending
  {
    hide Core, HighestFrom, RingNext, RingCurrent;
  }

  lemma WaiterLowered(s: K)
    requires Inv(s) && 2 in s.prio && s.prio[2] == 3 && 2 in s.own.base && s.own.base[2] == 3 && s.cfg.P >= 5
    requires 2 in s.lists.at && s.lists.at[2] == Delayed
    ensures var r := PrioritySet(s, 2, 1);
      && r.cfg == s.cfg && r.clock == s.clock && r.cpu == s.cpu && r.lists == s.lists && r.ev.waiting == s.ev.waiting
      && r.prio == s.prio[2 := 1] && r.own == Rebased(s.own, 2, 1)
  {
    hide Core;
    TaskKnown(s, 2);
  }

  /** The yield is lost in this run of eleven steps: at its end task 3 outranks task 1, and nobody has asked for a switch. */
  lemma SilentReachable(cfg: Config) returns (states: seq<K>, ops: seq<Op>)
    requires cfg.M == 2 * cfg.inUse && 5 <= cfg.P < cfg.inUse
    ensures IsRun(states, ops) && |ops| == 11 && states[0] == Started(cfg, 0) && Inv(states[10])
    ensures Outranks(states[11], 3) && !states[11].cpu.yieldPending && !Asks(states[10], ops[10])
  {
    hide Inv, Next, Contended, Inheriting, Overlooked, Outranks, GiveMutex;
    states, ops := Contend(cfg);
    var s := states[6];
    var a := WaiterComes(s);
    var b, c, d := RivalComes(a);
    var e := LastGive(d);
    states := states + [a, b, c, d, e];
    ops := ops + [OnMutex(BlockOn(0, 1)), OnClock(Switch), OnTask(SetTaskPriority(2, 1)), OnTask(CreateTask(3, 2)), OnMutex(Give(0))];
  }

  lemma LastGive(d: K) returns (e: K)
    requires Inv(d) && d.cpu.current == 1 && d.cpu.idle == 0 && IsReady(d.lists, 1) && !d.cpu.yieldPending && Overlooked(d, 0, 3)
    requires 0 in d.own.mutexes && d.own.mutexes[0] == Mutex(0, Task(1), false, 0) && 0 in d.ev.waiting
    ensures Step(d, OnMutex(Give(0)), e) && Outranks(e, 3) && !e.cpu.yieldPending && !Asks(d, OnMutex(Give(0)))
  {
    hide Core, GiveMutex, Outranks;
    e := GiveMutex(d, 0);
    OverlookedOutranks(d, OnMutex(Give(0)), 0, 3);
  }
}

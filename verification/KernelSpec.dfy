/**
 The scheduler of tasks.c as a state machine over unbounded, absolute time.

 One delayed list ordered by absolute wake time stands for the two wrapped lists, their swap and the
 cached next unblock time; class Scheduler (module Tasks) is proved to refine the operations below.
 Every operation is one critical section or one scheduler-suspended step of the source.
 */
module KernelSpec {
  import opened Sequences
  import opened StateLists
  import opened EventItems
  import opened Ownership

  type TaskId = nat

  /** `UBaseType_t` is 32 bits wide on the Cortex-M4 port. */
  const UBASE := 0x1_0000_0000

  /**
   `M` is the number of tick values (portMAX_DELAY is `M - 1`), `P` is configMAX_PRIORITIES, and
   `inUse` is the top bit of a tick value, taskEVENT_LIST_ITEM_VALUE_IN_USE.
   */
  datatype Config = Config(M: nat, P: nat, inUse: nat)

  /** Absolute time, ticks held back while the scheduler is suspended, and the suspension depth. */
  datatype Clock = Clock(now: nat, pended: nat, depth: nat)

  /** The running task, the idle task, `uxTopReadyPriority` and `xYieldPending`. */
  datatype Cpu = Cpu(current: TaskId, idle: TaskId, top: nat, yieldPending: bool)

  datatype K = K(cfg: Config, clock: Clock, prio: map<TaskId, nat>, lists: Lists, wake: map<TaskId, nat>,
                 ev: Events, own: Own, cpu: Cpu, tasks: nat, cleanUp: nat)

  // ------------------------------------------------------------------ invariant

  ghost predicate Configured(c: Config, ready: seq<Ring<TaskId>>, prio: map<TaskId, nat>) {
    && c.M == 2 * c.inUse && 1 <= c.P < c.inUse && |ready| == c.P
    && (forall t :: t in prio ==> prio[t] < c.P)
  }

  /** Only blocked tasks have their event item in a list. */
  ghost predicate WaitersBlocked(at: map<TaskId, Place>, l: Lists) {
    forall t :: t in at && at[t] != Nowhere ==> Blocked(l, t)
  }

  /** Delayed tasks are due at `lo` or later, before `hi`, and the list is in due order. */
  ghost predicate WakeTimes(delayed: seq<TaskId>, wake: map<TaskId, nat>, lo: nat, hi: nat) {
    && (forall t :: t in delayed ==> t in wake && lo <= wake[t] < hi)
    && Sorted(delayed, wake)
  }

  ghost predicate Selection(ready: seq<Ring<TaskId>>, prio: map<TaskId, nat>, cpu: Cpu) {
    && cpu.idle in prio && prio[cpu.idle] == 0 && |ready| > 0 && cpu.idle in ready[0].items
    && cpu.current in prio
    && cpu.top < |ready| && (forall p :: cpu.top < p < |ready| ==> ready[p].items == [])
  }

  /** The state half of the invariant; `lo` is the earliest allowed wake time. */
  ghost predicate ListsOk(l: Lists, prio: map<TaskId, nat>, wake: map<TaskId, nat>, cpu: Cpu, lo: nat, hi: nat) {
    && Placed(l) && Filed(l.at, prio)
    && WakeTimes(l.delayed, wake, lo, hi)
    && Selection(l.ready, prio, cpu)
  }

  /** The event half. */
  ghost predicate EventsOk(ev: Events, l: Lists) {
    Consistent(ev) && ev.at.Keys == l.at.Keys && WaitersBlocked(ev.at, l)
  }

  /** `Counted` and `Settled`, for the tasks that exist; the idle task owns no mutex. */
  ghost predicate Owned(o: Own, prio: map<TaskId, nat>, idle: TaskId, P: nat) {
    && Counted(o) && o.held.Keys == prio.Keys
    && Settled(o, prio)
    && (forall t :: t in o.base ==> o.base[t] < P)
    && idle in o.base && o.base[idle] == 0 && o.held[idle] == 0
  }

  /** Everything but the rule for an unsuspended scheduler. */
  ghost predicate Core(s: K, lo: nat) {
    && Configured(s.cfg, s.lists.ready, s.prio)
    && s.tasks == |s.prio| && s.cleanUp == |s.lists.termination|
    && ListsOk(s.lists, s.prio, s.wake, s.cpu, lo, s.clock.now + s.cfg.M)
    && EventsOk(s.ev, s.lists)
    && Owned(s.own, s.prio, s.cpu.idle, s.cfg.P)
  }

  ghost predicate Quiet(c: Clock, pending: seq<TaskId>) {
    c.pended < UBASE && (c.depth == 0 ==> c.pended == 0 && pending == [])
  }

  ghost predicate Inv(s: K) {
    Core(s, s.clock.now + 1) && Quiet(s.clock, s.ev.pending)
  }

  /** The parts of `Core`, for proofs that keep the definitions hidden. */
  lemma CoreParts(s: K, lo: nat)
    requires Core(s, lo)
    ensures Configured(s.cfg, s.lists.ready, s.prio) && |s.lists.ready| == s.cfg.P
    ensures s.tasks == |s.prio| && s.cleanUp == |s.lists.termination|
    ensures ListsOk(s.lists, s.prio, s.wake, s.cpu, lo, s.clock.now + s.cfg.M)
    ensures Placed(s.lists) && s.lists.at.Keys == s.prio.Keys
    ensures forall t :: t in s.lists.delayed ==> t in s.wake
    ensures EventsOk(s.ev, s.lists) && Consistent(s.ev) && s.ev.at.Keys == s.prio.Keys
    ensures s.cpu.current in s.prio && s.cpu.idle in s.prio && s.lists.at[s.cpu.idle] == Ready(0)
    ensures Owned(s.own, s.prio, s.cpu.idle, s.cfg.P)
    ensures forall t :: t in s.prio ==> s.prio[t] < s.cfg.P
  {
    assert Holds(s.lists.ready[0].items, s.lists.at, Ready(0));
  }

  lemma InvParts(s: K)
    requires Inv(s)
    ensures Configured(s.cfg, s.lists.ready, s.prio) && |s.lists.ready| == s.cfg.P
    ensures ListsOk(s.lists, s.prio, s.wake, s.cpu, s.clock.now + 1, s.clock.now + s.cfg.M)
    ensures Placed(s.lists) && s.lists.at.Keys == s.prio.Keys
    ensures forall t :: t in s.lists.delayed ==> t in s.wake
    ensures EventsOk(s.ev, s.lists) && Consistent(s.ev) && s.ev.at.Keys == s.prio.Keys
    ensures s.cpu.current in s.prio && s.cpu.idle in s.prio
    ensures Owned(s.own, s.prio, s.cpu.idle, s.cfg.P) && Quiet(s.clock, s.ev.pending)
    ensures s.tasks == |s.prio| && s.cleanUp == |s.lists.termination|
    ensures forall t :: t in s.prio ==> s.prio[t] < s.cfg.P
  {
    hide Core, Quiet;
    CoreParts(s, s.clock.now + 1);
  }

  lemma InvConsistent(s: K)
    requires Inv(s)
    ensures Consistent(s.ev) && s.ev.at.Keys == s.prio.Keys
  {
    hide Inv, ListsOk, EventsOk, Owned, Placed, Consistent, Configured;
    InvParts(s);
  }

  /** Parts that fit make a state of the invariant. */
  lemma PartsMakeInv(s: K)
    requires Configured(s.cfg, s.lists.ready, s.prio)
    requires s.tasks == |s.prio| && s.cleanUp == |s.lists.termination|
    requires ListsOk(s.lists, s.prio, s.wake, s.cpu, s.clock.now + 1, s.clock.now + s.cfg.M)
    requires EventsOk(s.ev, s.lists) && Owned(s.own, s.prio, s.cpu.idle, s.cfg.P) && Quiet(s.clock, s.ev.pending)
    ensures Inv(s)
  {
    hide Configured, ListsOk, EventsOk, Owned, Quiet;
  }

  // ------------------------------------------------------------------ waking

  /** `taskRECORD_READY_PRIORITY`. */
  function Recorded(cpu: Cpu, p: nat): Cpu {
    cpu.(top := if p > cpu.top then p else cpu.top)
  }

  /** `uxListRemove(&xStateListItem)` followed by `prvAddTaskToReadyList`. */
  function ToReady(l: Lists, t: TaskId, p: nat): Lists
    requires Placed(l) && t in l.at && p < |l.ready|
  {
    LeavePlaced(l, t);
    JoinReady(Leave(l, t), t, p)
  }

  lemma ToReadyPlaced(l: Lists, t: TaskId, p: nat)
    requires Placed(l) && t in l.at && p < |l.ready|
    ensures Placed(ToReady(l, t, p))
    ensures ToReady(l, t, p).at == l.at[t := Ready(p)]
    ensures ToReady(l, t, p).delayed == Without(l.delayed, t)
    ensures l.at[t] != Termination ==> ToReady(l, t, p).termination == l.termination
    ensures |ToReady(l, t, p).ready| == |l.ready|
  {
    LeavePlaced(l, t);
    JoinReadyPlaced(Leave(l, t), t, p);
  }

  /** A task leaves its state list and any event list and joins the ready list of its priority. */
  function MakeReady(s: K, t: TaskId): K
    requires Placed(s.lists) && t in s.lists.at
    requires Consistent(s.ev) && t in s.ev.at && t in s.prio && s.prio[t] < |s.lists.ready|
  {
    s.(lists := ToReady(s.lists, t, s.prio[t]), ev := EventItems.Remove(s.ev, t), cpu := Recorded(s.cpu, s.prio[t]))
  }

  lemma ToReadySelection(l: Lists, prio: map<TaskId, nat>, cpu: Cpu, t: TaskId)
    requires Placed(l) && Filed(l.at, prio) && Blocked(l, t) && Selection(l.ready, prio, cpu) && prio[t] < |l.ready|
    ensures Selection(ToReady(l, t, prio[t]).ready, prio, Recorded(cpu, prio[t]))
  {
  }

  lemma ToReadyLists(l: Lists, prio: map<TaskId, nat>, wake: map<TaskId, nat>, cpu: Cpu, lo: nat, hi: nat, t: TaskId)
    requires ListsOk(l, prio, wake, cpu, lo, hi) && Blocked(l, t) && prio[t] < |l.ready|
    ensures ListsOk(ToReady(l, t, prio[t]), prio, wake, Recorded(cpu, prio[t]), lo, hi)
  {
    ToReadyPlaced(l, t, prio[t]);
    FiledMove(l.at, prio, t, Ready(prio[t]));
    ToReadySelection(l, prio, cpu, t);
    WithoutSorted(l.delayed, wake, t);
  }

  lemma ToReadyEvents(ev: Events, l: Lists, t: TaskId, p: nat)
    requires Placed(l) && t in l.at && p < |l.ready| && EventsOk(ev, l)
    ensures EventsOk(EventItems.Remove(ev, t), ToReady(l, t, p))
  {
    ToReadyPlaced(l, t, p);
    RemoveConsistent(ev, t);
  }

  lemma MakeReadyKeeps(s: K, t: TaskId, lo: nat)
    requires Core(s, lo) && Blocked(s.lists, t)
    ensures Core(MakeReady(s, t), lo)
    ensures IsReady(MakeReady(s, t).lists, t)
    ensures MakeReady(s, t).lists.delayed == Without(s.lists.delayed, t)
  {
    ToReadyPlaced(s.lists, t, s.prio[t]);
    ToReadyLists(s.lists, s.prio, s.wake, s.cpu, lo, s.clock.now + s.cfg.M, t);
    ToReadyEvents(s.ev, s.lists, t, s.prio[t]);
  }

  /** `xYieldPending = pdTRUE`, if `y`. */
  function MarkYield(s: K, y: bool): K {
    s.(cpu := s.cpu.(yieldPending := s.cpu.yieldPending || y))
  }

  lemma MarkYieldKeeps(s: K, y: bool, lo: nat)
    requires Core(s, lo)
    ensures Core(MarkYield(s, y), lo)
    ensures Quiet(s.clock, s.ev.pending) <==> Quiet(MarkYield(s, y).clock, MarkYield(s, y).ev.pending)
  {
  }

  /** A suspended scheduler only takes note of a woken task. */
  function HoldPending(s: K, t: TaskId): K
    requires Consistent(s.ev) && t in s.ev.at
  {
    s.(ev := Defer(s.ev, t))
  }

  lemma DeferEvents(ev: Events, l: Lists, t: TaskId)
    requires EventsOk(ev, l) && Blocked(l, t)
    ensures EventsOk(Defer(ev, t), l)
  {
    DeferConsistent(ev, t);
  }

  lemma HoldPendingKeeps(s: K, t: TaskId, lo: nat)
    requires Core(s, lo) && Blocked(s.lists, t)
    ensures Core(HoldPending(s, t), lo)
  {
    DeferEvents(s.ev, s.lists, t);
  }

  /** Wake a task now, or hold it pending while the scheduler is suspended. */
  function Wake(s: K, t: TaskId): K
    requires Inv(s) && Blocked(s.lists, t)
  {
    if s.clock.depth == 0 then MakeReady(s, t) else HoldPending(s, t)
  }

  lemma WakeKeeps(s: K, t: TaskId)
    requires Inv(s) && Blocked(s.lists, t)
    ensures Inv(Wake(s, t))
  {
    if s.clock.depth == 0 {
      MakeReadyKeeps(s, t, s.clock.now + 1);
      StillQuiet(s.ev, t);
    } else {
      HoldPendingKeeps(s, t, s.clock.now + 1);
    }
  }

  lemma StillQuiet(ev: Events, t: TaskId)
    requires Consistent(ev) && t in ev.at && ev.pending == []
    ensures EventItems.Remove(ev, t).pending == []
  {
  }

  /** `xTaskRemoveFromEventList`. */
  function WakeHead(s: K, l: ListId): K
    requires Inv(s) && l in s.ev.waiting && s.ev.waiting[l] != []
  {
    var t := s.ev.waiting[l][0];
    WaiterKnown(s, l, t, s.clock.now + 1);
    MarkYield(Wake(s, t), s.prio[t] > s.prio[s.cpu.current])
  }

  lemma WaiterKnown(s: K, l: ListId, t: TaskId, lo: nat)
    requires Core(s, lo) && l in s.ev.waiting && t in s.ev.waiting[l]
    ensures t in s.prio && Blocked(s.lists, t) && t in s.ev.at && s.ev.at[t] == On(l)
  {
    assert Holds(s.ev.waiting[l], s.ev.at, On(l));
  }

  lemma WakeHeadKeeps(s: K, l: ListId)
    requires Inv(s) && l in s.ev.waiting && s.ev.waiting[l] != []
    ensures Inv(WakeHead(s, l))
  {
    hide Core, Wake, MarkYield;
    var t := s.ev.waiting[l][0];
    WaiterKnown(s, l, t, s.clock.now + 1);
    CoreParts(s, s.clock.now + 1);
    WakeKeeps(s, t);
    MarkYieldInv(Wake(s, t), s.prio[t] > s.prio[s.cpu.current]);
  }

  lemma MarkYieldInv(s: K, y: bool)
    requires Inv(s)
    ensures Inv(MarkYield(s, y))
  {
    MarkYieldKeeps(s, y, s.clock.now + 1);
  }

  // ------------------------------------------------------------------ ticks

  function HasDue(s: K): bool
    requires forall t :: t in s.lists.delayed ==> t in s.wake
  {
    s.lists.delayed != [] && s.wake[s.lists.delayed[0]] <= s.clock.now
  }

  lemma DelayedKnown(s: K, t: TaskId, lo: nat)
    requires Core(s, lo) && t in s.lists.delayed
    ensures t in s.wake && Blocked(s.lists, t) && t in s.prio && t in s.ev.at
  {
  }

  /** Every delayed task whose time has come becomes ready, earliest first. */
  function ReleaseDue(s: K): K
    requires Core(s, s.clock.now)
    decreases |s.lists.delayed|
  {
    if HasDue(s) then
      var t := s.lists.delayed[0];
      DelayedKnown(s, t, s.clock.now);
      MakeReadyKeeps(s, t, s.clock.now);
      ReleaseDue(MakeReady(s, t))
    else s
  }

  /** What a step that only makes the tasks of `due` ready leaves alone. */
  ghost predicate OnlyReadies(s: K, r: K, due: set<TaskId>) {
    && r.cfg == s.cfg && r.clock == s.clock && r.prio == s.prio && r.wake == s.wake && r.own == s.own
    && r.cpu.current == s.cpu.current && r.cpu.idle == s.cpu.idle && r.cpu.yieldPending == s.cpu.yieldPending
    && r.tasks == s.tasks && r.cleanUp == s.cleanUp && r.ev.value == s.ev.value
    && r.lists.at.Keys == s.lists.at.Keys && r.ev.at.Keys == s.ev.at.Keys
    && (forall t :: t in s.lists.at && t !in due ==> r.lists.at[t] == s.lists.at[t])
    && (forall t :: t in s.ev.at && t !in due ==> r.ev.at[t] == s.ev.at[t])
    && (forall t :: t in s.lists.at && t in due ==> r.lists.at[t].Ready?)
  }

  lemma MakeReadyOnly(s: K, t: TaskId)
    requires Placed(s.lists) && t in s.lists.at && Consistent(s.ev) && t in s.ev.at
    requires t in s.prio && s.prio[t] < |s.lists.ready|
    ensures OnlyReadies(s, MakeReady(s, t), {t})
  {
    hide Placed, Consistent, ToReady, EventItems.Remove;
    ToReadyPlaced(s.lists, t, s.prio[t]);
    RemoveConsistent(s.ev, t);
  }

  lemma OnlyReadiesSelf(s: K)
    ensures OnlyReadies(s, s, {})
  {
  }

  lemma OnlyReadiesTrans(s: K, m: K, r: K, d: set<TaskId>, e: set<TaskId>)
    requires OnlyReadies(s, m, d) && OnlyReadies(m, r, e)
    ensures OnlyReadies(s, r, d + e)
  {
  }

  function Due(s: K, at: nat): set<TaskId>
    requires forall t :: t in s.lists.delayed ==> t in s.wake
  {
    set t | t in s.lists.delayed && s.wake[t] <= at
  }

  /** Exactly the due tasks leave the delayed list, and the invariant holds again. */
  lemma {:induction false} ReleaseDueExact(s: K)
    requires Core(s, s.clock.now)
    ensures Core(ReleaseDue(s), s.clock.now + 1)
    ensures OnlyReadies(s, ReleaseDue(s), Due(s, s.clock.now))
    ensures s.ev.pending == [] ==> ReleaseDue(s).ev.pending == []
    decreases |s.lists.delayed|
  {
    hide Core, MakeReady, Without, OnlyReadies, Due, HasDue;
    DelayedHaveTimes(s, s.clock.now);
    if HasDue(s) {
      var m := ReleaseFirst(s);
      ReleaseDueExact(m);
      OnlyReadiesTrans(s, m, ReleaseDue(s), {s.lists.delayed[0]}, Due(m, s.clock.now));
    } else {
      NothingDue(s);
      OnlyReadiesSelf(s);
    }
  }

  /** One turn of the loop. */
  lemma ReleaseFirst(s: K) returns (m: K)
    requires Core(s, s.clock.now) && (forall t :: t in s.lists.delayed ==> t in s.wake) && HasDue(s)
    ensures s.lists.delayed != [] && m.clock == s.clock && |m.lists.delayed| < |s.lists.delayed|
    ensures Core(m, s.clock.now) && OnlyReadies(s, m, {s.lists.delayed[0]}) && ReleaseDue(s) == ReleaseDue(m)
    ensures s.ev.pending == [] ==> m.ev.pending == []
    ensures forall u :: u in m.lists.delayed ==> u in m.wake
    ensures Due(s, s.clock.now) == {s.lists.delayed[0]} + Due(m, s.clock.now)
  {
    hide Core, Without, EventItems.Remove, ListsOk, EventsOk, Owned, Configured, Placed, Consistent, OnlyReadies, Due, ToReady;
    CoreParts(s, s.clock.now);
    DueHead(s);
    var t := s.lists.delayed[0];
    DelayedKnown(s, t, s.clock.now);
    m := MakeReady(s, t);
    MakeReadyKeeps(s, t, s.clock.now);
    MakeReadyOnly(s, t);
    if s.ev.pending == [] { StaysQuiet(s, t); }
    DueStep(s, m, t);
  }

  lemma DueHead(s: K)
    requires (forall t :: t in s.lists.delayed ==> t in s.wake) && HasDue(s)
    ensures s.lists.delayed != [] && s.lists.delayed[0] in s.lists.delayed
  {
  }

  lemma StaysQuiet(s: K, t: TaskId)
    requires Placed(s.lists) && t in s.lists.at && Consistent(s.ev) && t in s.ev.at && s.ev.pending == []
    requires t in s.prio && s.prio[t] < |s.lists.ready|
    ensures MakeReady(s, t).ev.pending == []
  {
    hide Placed, ToReady;
    StillQuiet(s.ev, t);
  }

  lemma DueStep(s: K, m: K, t: TaskId)
    requires Core(s, s.clock.now) && HasDue(s) && t == s.lists.delayed[0]
    requires m.lists.delayed == Without(s.lists.delayed, t) && m.wake == s.wake
    ensures (forall u :: u in m.lists.delayed ==> u in m.wake) && Due(s, s.clock.now) == {t} + Due(m, s.clock.now)
  {
    hide Core, Without;
    DelayedHaveTimes(s, s.clock.now);
  }

  lemma NothingDue(s: K)
    requires Core(s, s.clock.now) && !HasDue(s)
    ensures Core(s, s.clock.now + 1) && Due(s, s.clock.now) == {}
  {
    forall t | t in s.lists.delayed ensures s.wake[t] >= s.clock.now + 1 {
      var i :| 0 <= i < |s.lists.delayed| && s.lists.delayed[i] == t;
      assert i > 0 ==> s.wake[s.lists.delayed[0]] <= s.wake[s.lists.delayed[i]];
    }
  }

  /** `xTaskIncrementTick` with the scheduler running. */
  function TickNow(s: K): K
    requires Core(s, s.clock.now + 1)
  {
    TimePasses(s);
    ReleaseDue(s.(clock := s.clock.(now := s.clock.now + 1)))
  }

  lemma TimePasses(s: K)
    requires Core(s, s.clock.now + 1)
    ensures Core(s.(clock := s.clock.(now := s.clock.now + 1)), s.clock.now + 1)
  {
  }

  lemma TickNowExact(s: K)
    requires Core(s, s.clock.now + 1)
    ensures var r := TickNow(s);
      && Core(r, r.clock.now + 1) && r.clock == s.clock.(now := s.clock.now + 1)
      && OnlyReadies(s.(clock := r.clock), r, Due(s, r.clock.now))
      && (s.ev.pending == [] ==> r.ev.pending == [])
  {
    hide Core, ReleaseDue;
    DelayedHaveTimes(s, s.clock.now + 1);
    TimePasses(s);
    ReleaseDueExact(s.(clock := s.clock.(now := s.clock.now + 1)));
  }

  lemma DelayedHaveTimes(s: K, lo: nat)
    requires Core(s, lo)
    ensures forall t :: t in s.lists.delayed ==> t in s.wake
  {
  }

  /** The next tick wakes a task of the running task's priority or above. */
  predicate WakesRival(s: K)
    requires Core(s, s.clock.now + 1)
  {
    exists t :: t in s.lists.delayed && s.wake[t] <= s.clock.now + 1 && s.prio[t] >= s.prio[s.cpu.current]
  }

  /** `xSwitchRequired`: a rival wakes, the running task must share its priority, or a switch is pending. */
  function TickSwitches(s: K): bool
    requires Core(s, s.clock.now + 1)
  {
    TickNowExact(s);
    WakesRival(s) || |TickNow(s).lists.ready[s.prio[s.cpu.current]].items| > 1 || s.cpu.yieldPending
  }

  /** One tick interrupt. */
  function Tick(s: K): K
    requires Inv(s)
  {
    if s.clock.depth == 0 then TickNow(s)
    else s.(clock := s.clock.(pended := (s.clock.pended + 1) % UBASE))
  }

  lemma TickKeeps(s: K)
    requires Inv(s)
    ensures Inv(Tick(s))
  {
    if s.clock.depth == 0 { TickNowExact(s); }
  }

  // ------------------------------------------------------------------ resuming the scheduler

  lemma PendingKnown(s: K, t: TaskId)
    requires Core(s, s.clock.now + 1) && t in s.ev.pending
    ensures Blocked(s.lists, t) && t in s.prio && t in s.ev.at && s.ev.at[t] == Pending
    ensures EventItems.Remove(s.ev, t).pending == Without(s.ev.pending, t)
  {
  }

  ghost predicate SameButLists(s: K, r: K) {
    && r.cfg == s.cfg && r.prio == s.prio && r.wake == s.wake && r.own == s.own
    && r.cpu.current == s.cpu.current && r.cpu.idle == s.cpu.idle
    && r.tasks == s.tasks && r.cleanUp == s.cleanUp && r.ev.value == s.ev.value
  }

  function DrainOne(s: K): K
    requires Core(s, s.clock.now + 1) && s.ev.pending != []
  {
    var t := s.ev.pending[0];
    PendingKnown(s, t);
    MarkYield(MakeReady(s, t), s.prio[t] >= s.prio[s.cpu.current])
  }

  lemma DrainOneExact(s: K)
    requires Core(s, s.clock.now + 1) && s.ev.pending != []
    ensures var r := DrainOne(s);
      && Core(r, s.clock.now + 1) && r.clock == s.clock && SameButLists(s, r)
      && r.ev.pending == Without(s.ev.pending, s.ev.pending[0])
  {
    hide Core, ListsOk, EventsOk, Owned, Placed, Consistent, Configured, ToReady;
    CoreParts(s, s.clock.now + 1);
    var t := s.ev.pending[0];
    PendingKnown(s, t);
    MakeReadyKeeps(s, t, s.clock.now + 1);
    MarkYieldKeeps(MakeReady(s, t), s.prio[t] >= s.prio[s.cpu.current], s.clock.now + 1);
  }

  /** Tasks woken during the suspension become ready, in the order they were woken. */
  function DrainPending(s: K): K
    requires Core(s, s.clock.now + 1)
    decreases |s.ev.pending|
  {
    if s.ev.pending == [] then s else
      DrainOneExact(s);
      DrainPending(DrainOne(s))
  }

  lemma {:induction false} DrainPendingKeeps(s: K)
    requires Core(s, s.clock.now + 1)
    ensures Core(DrainPending(s), s.clock.now + 1)
    ensures DrainPending(s).ev.pending == [] && DrainPending(s).clock == s.clock && SameButLists(s, DrainPending(s))
    decreases |s.ev.pending|
  {
    if s.ev.pending != [] {
      DrainOneExact(s);
      var m := DrainOne(s);
      DrainPendingKeeps(m);
      assert DrainPending(s) == DrainPending(m);
    }
  }

  /** One replayed tick: a switch it asks for is left pending. */
  function ReplayTick(s: K): K
    requires Core(s, s.clock.now + 1)
  {
    MarkYield(TickNow(s), TickSwitches(s))
  }

  lemma ReplayTickExact(s: K)
    requires Core(s, s.clock.now + 1)
    ensures var r := ReplayTick(s);
      && Core(r, r.clock.now + 1) && r.clock == s.clock.(now := s.clock.now + 1)
      && SameButLists(s, r)
      && (s.ev.pending == [] ==> r.ev.pending == [])
  {
    TickNowExact(s);
    MarkYieldKeeps(TickNow(s), TickSwitches(s), s.clock.now + 2);
  }

  function Replay(s: K, k: nat): K
    requires Core(s, s.clock.now + 1)
    decreases k
  {
    if k == 0 then s else
      ReplayTickExact(s);
      Replay(ReplayTick(s), k - 1)
  }

  ghost predicate Replayed(s: K, r: K, k: nat) {
    && Core(r, s.clock.now + k + 1) && r.ev.pending == []
    && r.clock == s.clock.(now := s.clock.now + k) && SameButLists(s, r)
  }

  lemma ReplayedTrans(s: K, m: K, r: K, k: nat)
    requires Replayed(s, m, 1) && Replayed(m, r, k)
    ensures Replayed(s, r, k + 1)
  {
  }

  lemma ReplayTickReplayed(s: K)
    requires Core(s, s.clock.now + 1) && s.ev.pending == []
    ensures Replayed(s, ReplayTick(s), 1)
  {
    ReplayTickExact(s);
  }

  lemma {:induction false} ReplayKeeps(s: K, k: nat)
    requires Core(s, s.clock.now + 1) && s.ev.pending == []
    ensures Replayed(s, Replay(s, k), k)
    decreases k
  {
    hide ReplayTick, Core;
    if k > 0 {
      ReplayTickReplayed(s);
      ReplayKeeps(ReplayTick(s), k - 1);
      ReplayedTrans(s, ReplayTick(s), Replay(ReplayTick(s), k - 1), k - 1);
    }
  }

  /** `xTaskResumeAll`. */
  function ResumeAll(s: K): K
    requires Inv(s) && s.clock.depth > 0
  {
    var d := s.(clock := s.clock.(depth := s.clock.depth - 1));
    if d.clock.depth > 0 then d else
      DrainPendingKeeps(d);
      var r := Replay(DrainPending(d), s.clock.pended);
      r.(clock := r.clock.(pended := 0))
  }

  lemma ResumeAllKeeps(s: K)
    requires Inv(s) && s.clock.depth > 0
    ensures Inv(ResumeAll(s))
    ensures ResumeAll(s).clock.now + ResumeAll(s).clock.pended == s.clock.now + s.clock.pended
  {
    hide ListsOk, EventsOk, Owned, Configured, DrainPending, Replay;
    var d := s.(clock := s.clock.(depth := s.clock.depth - 1));
    if d.clock.depth == 0 {
      DrainPendingKeeps(d);
      ReplayKeeps(DrainPending(d), s.clock.pended);
    }
  }

  // ------------------------------------------------------------------ choosing the task to run

  /** `taskSELECT_HIGHEST_PRIORITY_TASK`'s downward search. */
  function HighestFrom(ready: seq<Ring<TaskId>>, p: nat): (q: nat)
    requires p < |ready| && ready[0].items != []
    ensures q <= p && ready[q].items != [] && forall i :: q < i <= p ==> ready[i].items == []
  {
    if ready[p].items != [] then p else HighestFrom(ready, p - 1)
  }

  /** `vTaskSwitchContext`. */
  function SwitchContext(s: K): K
    requires Core(s, s.clock.now + 1)
  {
    if s.clock.depth > 0 then s.(cpu := s.cpu.(yieldPending := true)) else
      var p := HighestFrom(s.lists.ready, s.cpu.top);
      var ring := RingNext(s.lists.ready[p]);
      s.(lists := s.lists.(ready := s.lists.ready[p := ring]),
         cpu := s.cpu.(current := RingCurrent(ring), top := p, yieldPending := false))
  }

  lemma SwitchContextLists(l: Lists, p: nat)
    requires Placed(l) && p < |l.ready| && l.ready[p].items != []
    ensures Placed(l.(ready := l.ready[p := RingNext(l.ready[p])]))
    ensures RingCurrent(RingNext(l.ready[p])) in l.at
  {
    var r := l.ready[p := RingNext(l.ready[p])];
    forall q | 0 <= q < |r| ensures Holds(r[q].items, l.at, Ready(q)) {
      assert Holds(l.ready[q].items, l.at, Ready(q));
    }
  }

  /** The priority the search selects. */
  lemma TopOf(s: K) returns (p: nat)
    requires Core(s, s.clock.now + 1)
    ensures s.cpu.top < |s.lists.ready| && s.lists.ready[0].items != [] && p == HighestFrom(s.lists.ready, s.cpu.top)
    ensures p < |s.lists.ready| && s.lists.ready[p].items != [] && s.lists.ready[p].index <= |s.lists.ready[p].items|
    ensures p <= s.cpu.top && forall q :: p < q < |s.lists.ready| ==> s.lists.ready[q].items == []
  {
    hide EventsOk, Owned, Configured, Holds, Filed, WakeTimes;
    p := HighestFrom(s.lists.ready, s.cpu.top);
  }

  lemma SwitchListsOk(l: Lists, prio: map<TaskId, nat>, wake: map<TaskId, nat>, cpu: Cpu, lo: nat, hi: nat, p: nat)
    requires ListsOk(l, prio, wake, cpu, lo, hi) && p < |l.ready| && l.ready[p].items != []
    requires l.ready[p].index <= |l.ready[p].items| && forall q :: p < q < |l.ready| ==> l.ready[q].items == []
    ensures ListsOk(l.(ready := l.ready[p := RingNext(l.ready[p])]), prio, wake,
                    cpu.(current := RingCurrent(RingNext(l.ready[p])), top := p, yieldPending := false), lo, hi)
  {
    hide Placed, Filed, WakeTimes;
    SwitchContextLists(l, p);
    FiledKnows(l.at, prio);
  }

  lemma FiledKnows(at: map<TaskId, Home>, prio: map<TaskId, nat>)
    requires Filed(at, prio)
    ensures at.Keys == prio.Keys
  {
  }

  lemma SwitchEvents(ev: Events, l: Lists, r: Lists)
    requires EventsOk(ev, l) && r.at == l.at
    ensures EventsOk(ev, r)
  {
  }

  lemma SwitchConfigured(c: Config, ready: seq<Ring<TaskId>>, prio: map<TaskId, nat>, p: nat)
    requires Configured(c, ready, prio) && p < |ready| && ready[p].items != [] && ready[p].index <= |ready[p].items|
    ensures Configured(c, ready[p := RingNext(ready[p])], prio)
  {
  }

  lemma SwitchContextKeeps(s: K)
    requires Inv(s)
    ensures Inv(SwitchContext(s))
  {
    hide ListsOk, EventsOk, Owned, Configured, Placed, HighestFrom, RingNext, RingCurrent;
    if s.clock.depth == 0 {
      var p := TopOf(s);
      SwitchListsOk(s.lists, s.prio, s.wake, s.cpu, s.clock.now + 1, s.clock.now + s.cfg.M, p);
      SwitchEvents(s.ev, s.lists, s.lists.(ready := s.lists.ready[p := RingNext(s.lists.ready[p])]));
      SwitchConfigured(s.cfg, s.lists.ready, s.prio, p);
    } else {
      MarkYieldInv(s, true);
    }
  }

  /** The chosen task is ready, and no ready task has a higher priority. */
  lemma SwitchContextPicksHighest(s: K, t: TaskId)
    requires Inv(s) && s.clock.depth == 0 && IsReady(s.lists, t)
    ensures IsReady(SwitchContext(s).lists, SwitchContext(s).cpu.current)
    ensures s.prio[t] <= s.prio[SwitchContext(s).cpu.current]
  {
    var p := HighestFrom(s.lists.ready, s.cpu.top);
    var c := SwitchContext(s).cpu.current;
    assert Holds(s.lists.ready[p].items, s.lists.at, Ready(p)) && c in s.lists.ready[p].items;
    var q := s.prio[t];
    assert Holds(s.lists.ready[q].items, s.lists.at, Ready(q)) && t in s.lists.ready[q].items;
  }
}

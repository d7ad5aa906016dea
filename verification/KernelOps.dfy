/** The calls tasks and interrupts make on the scheduler, each as one step on the kernel state. */
module KernelOps {
  import opened Sequences
  import opened StateLists
  import opened EventItems
  import opened Ownership
  import opened KernelSpec

  // ------------------------------------------------------------------ blocking

  /** `portMAX_DELAY` means for ever, where the caller allows it. */
  predicate ForEver(c: Config, ticks: nat, canBlockIndefinitely: bool) {
    ticks + 1 == c.M && canBlockIndefinitely
  }

  function BlockLists(l: Lists, t: TaskId, wake: map<TaskId, nat>, forEver: bool): Lists
    requires Placed(l) && t in l.at
    requires !forEver ==> t in wake && forall u :: u in l.delayed ==> u in wake
  {
    LeavePlaced(l, t);
    if forEver then JoinSuspended(Leave(l, t), t) else JoinDelayed(Leave(l, t), t, wake)
  }

  lemma BlockListsPlaced(l: Lists, t: TaskId, wake: map<TaskId, nat>, forEver: bool)
    requires Placed(l) && IsReady(l, t)
    requires !forEver ==> t in wake && forall u :: u in l.delayed ==> u in wake
    ensures var r := BlockLists(l, t, wake, forEver);
      && Placed(r) && r.at == l.at[t := if forEver then Suspended else Delayed]
      && r.delayed == (if forEver then l.delayed else SortedInsert(l.delayed, wake, t))
      && r.termination == l.termination && |r.ready| == |l.ready|
      && r.ready == l.ready[l.at[t].p := RingRemove(l.ready[l.at[t].p], t)]
  {
    hide Placed, RingRemove, SortedInsert;
    LeavePlaced(l, t);
    LeaveReady(l, t);
    if forEver { JoinSuspendedPlaced(Leave(l, t), t); } else { JoinDelayedPlaced(Leave(l, t), t, wake); }
  }

  lemma LeaveReady(l: Lists, t: TaskId)
    requires Placed(l) && IsReady(l, t)
    ensures l.at[t].p < |l.ready| && l.ready[l.at[t].p].index <= |l.ready[l.at[t].p].items|
    ensures Leave(l, t) == l.(at := l.at[t := Unlisted], ready := l.ready[l.at[t].p := RingRemove(l.ready[l.at[t].p], t)])
  {
  }

  lemma LeaveSelection(ready: seq<Ring<TaskId>>, prio: map<TaskId, nat>, cpu: Cpu, t: TaskId, p: nat)
    requires Selection(ready, prio, cpu) && t != cpu.idle && p < |ready| && ready[p].index <= |ready[p].items|
    ensures Selection(ready[p := RingRemove(ready[p], t)], prio, cpu)
  {
  }

  lemma BlockListsOk(l: Lists, prio: map<TaskId, nat>, wake: map<TaskId, nat>, cpu: Cpu, lo: nat, hi: nat,
                     t: TaskId, due: nat, forEver: bool)
    requires ListsOk(l, prio, wake, cpu, lo, hi) && IsReady(l, t) && t != cpu.idle && (forEver || lo <= due < hi)
    ensures var w := if forEver then wake else wake[t := due];
      ListsOk(BlockLists(l, t, w, forEver), prio, w, cpu, lo, hi)
  {
    hide Placed, Filed, Selection, BlockLists, RingRemove, Leave;
    var w := if forEver then wake else wake[t := due];
    LeaveReady(l, t);
    BlockListsPlaced(l, t, w, forEver);
    FiledMove(l.at, prio, t, if forEver then Suspended else Delayed);
    LeaveSelection(l.ready, prio, cpu, t, l.at[t].p);
    if !forEver { DelayedTimes(l, wake, t, lo, hi, due); }
  }

  /** A task that joins the delayed list keeps it in order and within its bounds. */
  lemma DelayedTimes(l: Lists, wake: map<TaskId, nat>, t: TaskId, lo: nat, hi: nat, due: nat)
    requires Placed(l) && IsReady(l, t) && WakeTimes(l.delayed, wake, lo, hi) && lo <= due < hi
    ensures forall u :: u in l.delayed ==> u in wake[t := due]
    ensures WakeTimes(SortedInsert(l.delayed, wake[t := due], t), wake[t := due], lo, hi)
  {
    var w := wake[t := due];
    assert t !in l.delayed;
    assert Sorted(l.delayed, w);
    SortedInsertSorts(l.delayed, w, t);
  }

  /** `prvAddCurrentTaskToDelayedList`, with the event item already placed by the caller. */
  function Block(s: K, ev: Events, ticks: nat, canBlockIndefinitely: bool): K
    requires Inv(s) && IsReady(s.lists, s.cpu.current)
  {
    var t, e := s.cpu.current, ForEver(s.cfg, ticks, canBlockIndefinitely);
    var w := if e then s.wake else s.wake[t := s.clock.now + ticks];
    s.(wake := w, lists := BlockLists(s.lists, t, w, e), ev := ev)
  }

  /** `ev` differs from the state's events at most in where the running task waits. */
  ghost predicate OnlyCurrentWaits(s: K, ev: Events) {
    && Consistent(ev) && ev.at.Keys == s.ev.at.Keys && ev.pending == s.ev.pending
    && forall u :: u in ev.at && u != s.cpu.current ==> ev.at[u] == s.ev.at[u]
  }

  lemma BlockEvents(ev0: Events, ev: Events, l: Lists, r: Lists, t: TaskId)
    requires EventsOk(ev0, l) && Consistent(ev) && ev.at.Keys == ev0.at.Keys && Blocked(r, t)
    requires forall u :: u in ev.at && u != t ==> ev.at[u] == ev0.at[u]
    requires r.at.Keys == l.at.Keys && forall u :: u in l.at && u != t ==> r.at[u] == l.at[u]
    ensures EventsOk(ev, r)
  {
  }

  /** New lists, wake times and event items that fit make a state of the invariant again. */
  lemma NewListsInv(s: K, lists: Lists, wake: map<TaskId, nat>, ev: Events)
    requires Inv(s) && |lists.ready| == |s.lists.ready| && lists.termination == s.lists.termination && ev.pending == s.ev.pending
    requires ListsOk(lists, s.prio, wake, s.cpu, s.clock.now + 1, s.clock.now + s.cfg.M) && EventsOk(ev, lists)
    ensures Inv(s.(wake := wake, lists := lists, ev := ev))
  {
    hide ListsOk, EventsOk, Owned;
  }

  lemma BlockKeeps(s: K, ev: Events, ticks: nat, canBlockIndefinitely: bool)
    requires Inv(s) && IsReady(s.lists, s.cpu.current) && s.cpu.current != s.cpu.idle
    requires 1 <= ticks < s.cfg.M && OnlyCurrentWaits(s, ev)
    ensures Inv(Block(s, ev, ticks, canBlockIndefinitely))
  {
    hide Inv, Owned, ListsOk, EventsOk, Placed, Consistent, Configured, BlockLists;
    InvParts(s);
    var t, e := s.cpu.current, ForEver(s.cfg, ticks, canBlockIndefinitely);
    var w := if e then s.wake else s.wake[t := s.clock.now + ticks];
    BlockListsPlaced(s.lists, t, w, e);
    BlockListsOk(s.lists, s.prio, s.wake, s.cpu, s.clock.now + 1, s.clock.now + s.cfg.M, t, s.clock.now + ticks, e);
    BlockEvents(s.ev, ev, s.lists, BlockLists(s.lists, t, w, e), t);
    NewListsInv(s, BlockLists(s.lists, t, w, e), w, ev);
  }

  /** The running task delays itself: `vTaskDelay`, `vTaskDelayUntil`. */
  function Delay(s: K, ticks: nat): K
    requires Inv(s) && IsReady(s.lists, s.cpu.current)
  {
    Block(s, s.ev, ticks, false)
  }

  /** `vTaskPlaceOnEventList`. */
  function PlaceOnEventList(s: K, l: ListId, ticks: nat): K
    requires Inv(s) && IsReady(s.lists, s.cpu.current) && l in s.ev.waiting
  {
    Block(s, InsertSorted(s.ev, l, s.cpu.current), ticks, true)
  }

  /** `vTaskPlaceOnUnorderedEventList`: the item value is marked as in use by its top bit. */
  function PlaceOnUnordered(s: K, l: ListId, value: nat, ticks: nat): K
    requires Inv(s) && IsReady(s.lists, s.cpu.current) && l in s.ev.waiting
  {
    Block(s, Append(s.ev, l, s.cpu.current, value + s.cfg.inUse), ticks, true)
  }

  lemma ReadyWaitsNowhere(s: K, t: TaskId)
    requires Inv(s) && IsReady(s.lists, t)
    ensures t in s.ev.at && s.ev.at[t] == Nowhere && t in s.prio && s.lists.at[t] == Ready(s.prio[t])
  {
    hide Core, Owned, Configured, Consistent, Placed, WakeTimes, Selection;
    CoreParts(s, s.clock.now + 1);
  }

  lemma WaitsAsBefore(s: K)
    requires Inv(s)
    ensures OnlyCurrentWaits(s, s.ev)
  {
  }

  lemma DelayKeeps(s: K, ticks: nat)
    requires Inv(s) && IsReady(s.lists, s.cpu.current) && s.cpu.current != s.cpu.idle && 1 <= ticks < s.cfg.M
    ensures Inv(Delay(s, ticks))
  {
    hide Core, Block, OnlyCurrentWaits, Consistent;
    CoreParts(s, s.clock.now + 1);
    WaitsAsBefore(s);
    BlockKeeps(s, s.ev, ticks, false);
  }

  lemma WaitsInOrder(s: K, l: ListId)
    requires Inv(s) && IsReady(s.lists, s.cpu.current) && l in s.ev.waiting
    ensures OnlyCurrentWaits(s, InsertSorted(s.ev, l, s.cpu.current))
  {
    hide Core, Consistent, ListsOk, EventsOk, Placed, Owned, SortedInsert;
    CoreParts(s, s.clock.now + 1);
    ReadyWaitsNowhere(s, s.cpu.current);
    InsertSortedConsistent(s.ev, l, s.cpu.current);
  }

  lemma PlaceOnEventListKeeps(s: K, l: ListId, ticks: nat)
    requires Inv(s) && IsReady(s.lists, s.cpu.current) && s.cpu.current != s.cpu.idle && 1 <= ticks < s.cfg.M
    requires l in s.ev.waiting
    ensures Inv(PlaceOnEventList(s, l, ticks))
  {
    hide Core, Block, OnlyCurrentWaits, InsertSorted, Consistent, Placed, ListsOk, EventsOk, Owned;
    CoreParts(s, s.clock.now + 1);
    WaitsInOrder(s, l);
    BlockKeeps(s, InsertSorted(s.ev, l, s.cpu.current), ticks, true);
  }

  lemma WaitsAtEnd(s: K, l: ListId, v: nat)
    requires Inv(s) && IsReady(s.lists, s.cpu.current) && l in s.ev.waiting
    ensures OnlyCurrentWaits(s, Append(s.ev, l, s.cpu.current, v))
  {
    hide Core, Consistent, ListsOk, EventsOk, Placed, Owned;
    CoreParts(s, s.clock.now + 1);
    ReadyWaitsNowhere(s, s.cpu.current);
    AppendConsistent(s.ev, l, s.cpu.current, v);
  }

  lemma PlaceOnUnorderedKeeps(s: K, l: ListId, value: nat, ticks: nat)
    requires Inv(s) && IsReady(s.lists, s.cpu.current) && s.cpu.current != s.cpu.idle && 1 <= ticks < s.cfg.M
    requires l in s.ev.waiting
    ensures Inv(PlaceOnUnordered(s, l, value, ticks))
  {
    hide Core, Block, OnlyCurrentWaits, Append, Consistent, Placed, ListsOk, EventsOk, Owned;
    CoreParts(s, s.clock.now + 1);
    var v := value + s.cfg.inUse;
    WaitsAtEnd(s, l, v);
    BlockKeeps(s, Append(s.ev, l, s.cpu.current, v), ticks, true);
  }

  // ------------------------------------------------------------------ waking from an unordered list

  /** `listSET_LIST_ITEM_VALUE` on an event item. */
  function SetValue(ev: Events, t: TaskId, v: nat): Events {
    ev.(value := ev.value[t := v])
  }

  /** A waiter gets its answer in its item value and becomes ready, even while the scheduler is suspended. */
  function AnswerWaiter(s: K, t: TaskId, v: nat): K
    requires Placed(s.lists) && t in s.lists.at && Consistent(s.ev) && t in s.ev.at
    requires t in s.prio && s.prio[t] < |s.lists.ready| && s.cpu.current in s.prio
  {
    SetValueConsistent(s.ev, t, v);
    MarkYield(MakeReady(s.(ev := SetValue(s.ev, t, v)), t), s.prio[t] > s.prio[s.cpu.current])
  }

  /** `xTaskRemoveFromUnorderedEventList`. */
  function WakeUnordered(s: K, t: TaskId, value: nat): K
    requires Inv(s) && t in s.ev.at && s.ev.at[t].On?
  {
    WaiterParts(s, t);
    AnswerWaiter(s, t, value + s.cfg.inUse)
  }

  lemma WaiterBlocked(s: K, t: TaskId)
    requires Inv(s) && t in s.ev.at && s.ev.at[t] != Nowhere
    ensures Blocked(s.lists, t) && t in s.prio && t != s.cpu.idle
  {
    assert Holds(s.lists.ready[0].items, s.lists.at, Ready(0));
  }

  lemma WaiterParts(s: K, t: TaskId)
    requires Inv(s) && t in s.ev.at
    ensures Placed(s.lists) && t in s.lists.at && Consistent(s.ev)
    ensures t in s.prio && s.prio[t] < |s.lists.ready| && s.cpu.current in s.prio
  {
    hide Inv, ListsOk, EventsOk, Owned, Configured, Placed, Consistent;
    InvParts(s);
  }

  lemma SetValueKeeps(s: K, t: TaskId, v: nat)
    requires Inv(s) && t in s.ev.at
    ensures Inv(s.(ev := s.ev.(value := s.ev.value[t := v])))
  {
    SetValueConsistent(s.ev, t, v);
  }

  /** `uxTaskResetEventItemValue`: the running task's item goes back to the value of its priority. */
  function ResetItemValue(s: K): K
    requires Inv(s)
  {
    CurrentParts(s);
    s.(ev := SetValue(s.ev, s.cpu.current, s.cfg.P - s.prio[s.cpu.current]))
  }

  lemma CurrentParts(s: K)
    requires Inv(s)
    ensures s.cpu.current in s.prio && s.cpu.current in s.ev.at && s.prio[s.cpu.current] < s.cfg.P
  {
    hide Inv, ListsOk, EventsOk, Owned, Configured, Placed, Consistent;
    InvParts(s);
  }

  lemma ResetItemValueKeeps(s: K)
    requires Inv(s)
    ensures Inv(ResetItemValue(s))
    ensures ResetItemValue(s).ev == SetValue(s.ev, s.cpu.current, ResetItemValue(s).ev.value[s.cpu.current])
    ensures ResetItemValue(s).ev.value[s.cpu.current] == s.cfg.P - s.prio[s.cpu.current] < s.cfg.inUse
  {
    hide Core;
    CurrentParts(s);
    NormalValueSmall(s, s.cpu.current);
    SetValueKeeps(s, s.cpu.current, s.cfg.P - s.prio[s.cpu.current]);
  }

  lemma NormalValueSmall(s: K, t: TaskId)
    requires Inv(s) && t in s.prio
    ensures 0 < s.cfg.P - s.prio[t] < s.cfg.inUse
  {
  }

  lemma WakeUnorderedKeeps(s: K, t: TaskId, value: nat)
    requires Inv(s) && t in s.ev.at && s.ev.at[t].On?
    ensures Inv(WakeUnordered(s, t, value))
  {
    hide Inv, MakeReady, MarkYield, Consistent, Placed;
    WaiterParts(s, t);
    WaiterBlocked(s, t);
    SetValueConsistent(s.ev, t, value + s.cfg.inUse);
    SetValueKeeps(s, t, value + s.cfg.inUse);
    var v := s.(ev := s.ev.(value := s.ev.value[t := value + s.cfg.inUse]));
    MakeReadyInv(v, t);
    MarkYieldInv(MakeReady(v, t), s.prio[t] > s.prio[s.cpu.current]);
  }

  lemma MakeReadyInv(s: K, t: TaskId)
    requires Inv(s) && Blocked(s.lists, t)
    ensures Inv(MakeReady(s, t))
  {
    MakeReadyKeeps(s, t, s.clock.now + 1);
    if s.clock.depth == 0 { StillQuiet(s.ev, t); }
  }

  // ------------------------------------------------------------------ suspend and resume a task

  function SuspendLists(l: Lists, t: TaskId): Lists
    requires Placed(l) && t in l.at
  {
    LeavePlaced(l, t);
    JoinSuspended(Leave(l, t), t)
  }

  /** `vTaskSuspend`. */
  function Suspend(s: K, t: TaskId): K
    requires Inv(s) && t in s.prio
  {
    s.(lists := SuspendLists(s.lists, t), ev := EventItems.Remove(s.ev, t))
  }

  lemma LeaveListsOk(l: Lists, prio: map<TaskId, nat>, wake: map<TaskId, nat>, cpu: Cpu, lo: nat, hi: nat, t: TaskId)
    requires ListsOk(l, prio, wake, cpu, lo, hi) && t in l.at && t != cpu.idle
    ensures Placed(Leave(l, t)) && Leave(l, t).at == l.at[t := Unlisted]
    ensures WakeTimes(Leave(l, t).delayed, wake, lo, hi)
    ensures Selection(Leave(l, t).ready, prio, cpu)
  {
    LeavePlaced(l, t);
    if l.at[t].Ready? { LeaveSelection(l.ready, prio, cpu, t, l.at[t].p); }
    WithoutSorted(l.delayed, wake, t);
  }

  lemma SuspendListsOk(l: Lists, prio: map<TaskId, nat>, wake: map<TaskId, nat>, cpu: Cpu, lo: nat, hi: nat, t: TaskId)
    requires ListsOk(l, prio, wake, cpu, lo, hi) && t in l.at && t != cpu.idle && l.at[t] != Termination
    ensures ListsOk(SuspendLists(l, t), prio, wake, cpu, lo, hi)
    ensures SuspendLists(l, t).at == l.at[t := Suspended] && SuspendLists(l, t).termination == l.termination
    ensures |SuspendLists(l, t).ready| == |l.ready|
  {
    hide Placed, Selection, WakeTimes, Filed, Leave;
    LeaveListsOk(l, prio, wake, cpu, lo, hi, t);
    LeaveTermination(l, t);
    JoinSuspendedPlaced(Leave(l, t), t);
    FiledMove(l.at, prio, t, Suspended);
    assert l.at[t := Unlisted][t := Suspended] == l.at[t := Suspended];
  }

  lemma LeaveTermination(l: Lists, t: TaskId)
    requires Placed(l) && t in l.at && l.at[t] != Termination
    ensures Leave(l, t).termination == l.termination
  {
  }

  lemma ParkEvents(ev: Events, l: Lists, r: Lists, t: TaskId)
    requires EventsOk(ev, l) && t in l.at && r.at.Keys == l.at.Keys
    requires forall u :: u in l.at && u != t ==> r.at[u] == l.at[u]
    ensures EventsOk(EventItems.Remove(ev, t), r)
    ensures ev.pending == [] ==> EventItems.Remove(ev, t).pending == []
  {
    RemoveConsistent(ev, t);
  }

  lemma SuspendKeeps(s: K, t: TaskId)
    requires Inv(s) && t in s.prio && t != s.cpu.idle && s.lists.at[t] != Termination
    ensures Inv(Suspend(s, t))
  {
    hide Inv, Configured, Owned, ListsOk, EventsOk, Placed, Consistent, SuspendLists, EventItems.Remove;
    InvParts(s);
    SuspendListsOk(s.lists, s.prio, s.wake, s.cpu, s.clock.now + 1, s.clock.now + s.cfg.M, t);
    ParkEvents(s.ev, s.lists, SuspendLists(s.lists, t), t);
    ConfiguredSame(s.cfg, s.lists.ready, SuspendLists(s.lists, t).ready, s.prio);
    PartsMakeInv(Suspend(s, t));
  }

  /** `prvTaskIsTaskSuspended`: suspended, not waiting for an event, and not already resumed by an ISR. */
  predicate IsSuspended(s: K, t: TaskId) {
    t in s.lists.at && s.lists.at[t] == Suspended && t in s.ev.at && s.ev.at[t] == Nowhere
  }

  /** `vTaskResume`, which acts even while the scheduler is suspended. */
  function Resume(s: K, t: TaskId): K
    requires Inv(s)
  {
    if t != s.cpu.current && IsSuspended(s, t) then MakeReady(s, t) else s
  }

  /** `xTaskResumeFromISR`. */
  function ResumeFromISR(s: K, t: TaskId): K
    requires Inv(s)
  {
    if IsSuspended(s, t) then Wake(s, t) else s
  }

  lemma ResumeKeeps(s: K, t: TaskId)
    requires Inv(s)
    ensures Inv(Resume(s, t)) && Inv(ResumeFromISR(s, t))
  {
    hide Core, MakeReady, Wake;
    if IsSuspended(s, t) {
      MakeReadyInv(s, t);
      WakeKeeps(s, t);
      SuspendedKnown(s, t);
    }
  }

  lemma SuspendedKnown(s: K, t: TaskId)
    requires Inv(s) && IsSuspended(s, t)
    ensures Placed(s.lists) && Consistent(s.ev) && t in s.prio && s.prio[t] < |s.lists.ready|
  {
    hide Core, ListsOk, EventsOk, Owned, Configured, Placed, Consistent;
    CoreParts(s, s.clock.now + 1);
  }

  // ------------------------------------------------------------------ create and delete

  function CreateLists(l: Lists, t: TaskId, p: nat): Lists
    requires Placed(l) && t !in l.at && p < |l.ready|
  {
    NewTaskPlaced(l, t);
    JoinReady(l.(at := l.at[t := Unlisted]), t, p)
  }

  function NewOwn(o: Own, t: TaskId, p: nat): Own {
    o.(base := o.base[t := p], held := o.held[t := 0])
  }

  function NewEvents(ev: Events, t: TaskId, v: nat): Events {
    ev.(at := ev.at[t := Nowhere], value := ev.value[t := v])
  }

  /** `prvInitialiseNewTask` and `prvAddNewTaskToReadyList`, with the scheduler running. */
  function Create(s: K, t: TaskId, p: nat): K
    requires Inv(s) && t !in s.prio && p < s.cfg.P
  {
    s.(prio := s.prio[t := p], lists := CreateLists(s.lists, t, p),
       ev := NewEvents(s.ev, t, s.cfg.P - p), own := NewOwn(s.own, t, p),
       cpu := Recorded(s.cpu, p), tasks := s.tasks + 1)
  }

  lemma CreateListsPlaced(l: Lists, t: TaskId, p: nat)
    requires Placed(l) && t !in l.at && p < |l.ready|
    ensures Placed(CreateLists(l, t, p)) && CreateLists(l, t, p).at == l.at[t := Ready(p)]
    ensures CreateLists(l, t, p).delayed == l.delayed && CreateLists(l, t, p).termination == l.termination
    ensures CreateLists(l, t, p).ready == l.ready[p := RingInsertEnd(l.ready[p], t)]
  {
    NewTaskPlaced(l, t);
    JoinReadyPlaced(l.(at := l.at[t := Unlisted]), t, p);
    assert l.at[t := Unlisted][t := Ready(p)] == l.at[t := Ready(p)];
  }

  lemma CreateListsOk(l: Lists, prio: map<TaskId, nat>, wake: map<TaskId, nat>, cpu: Cpu, lo: nat, hi: nat, t: TaskId, p: nat)
    requires ListsOk(l, prio, wake, cpu, lo, hi) && t !in prio && p < |l.ready|
    ensures ListsOk(CreateLists(l, t, p), prio[t := p], wake, Recorded(cpu, p), lo, hi)
  {
    hide Placed, CreateLists;
    CreateListsPlaced(l, t, p);
  }

  lemma CreateOwned(o: Own, prio: map<TaskId, nat>, idle: TaskId, P: nat, t: TaskId, p: nat)
    requires Owned(o, prio, idle, P) && t !in prio && p < P
    ensures Owned(NewOwn(o, t, p), prio[t := p], idle, P)
  {
    NewTaskCounted(o, t, p);
  }

  lemma CreateEvents(ev: Events, l: Lists, r: Lists, t: TaskId, v: nat, p: nat)
    requires EventsOk(ev, l) && t !in l.at && r.at == l.at[t := Ready(p)]
    ensures EventsOk(NewEvents(ev, t, v), r)
  {
    NewTaskConsistent(ev, t, v);
  }

  lemma ConfiguredSame(c: Config, ready: seq<Ring<TaskId>>, ready': seq<Ring<TaskId>>, prio: map<TaskId, nat>)
    requires Configured(c, ready, prio) && |ready'| == |ready|
    ensures Configured(c, ready', prio)
  {
  }

  lemma ConfiguredMore(c: Config, ready: seq<Ring<TaskId>>, ready': seq<Ring<TaskId>>, prio: map<TaskId, nat>, t: TaskId, p: nat)
    requires Configured(c, ready, prio) && p < c.P
    ensures |ready'| == |ready| ==> Configured(c, ready', prio[t := p])
  {
  }

  lemma CreateKeeps(s: K, t: TaskId, p: nat)
    requires Inv(s) && t !in s.prio && p < s.cfg.P
    ensures Inv(Create(s, t, p))
  {
    hide Inv, Configured, Owned, ListsOk, EventsOk, Placed, Consistent, CreateLists;
    InvParts(s);
    ConfiguredMore(s.cfg, s.lists.ready, CreateLists(s.lists, t, p).ready, s.prio, t, p);
    CreateListsPlaced(s.lists, t, p);
    CreateListsOk(s.lists, s.prio, s.wake, s.cpu, s.clock.now + 1, s.clock.now + s.cfg.M, t, p);
    CreateEvents(s.ev, s.lists, CreateLists(s.lists, t, p), t, s.cfg.P - p, p);
    CreateOwned(s.own, s.prio, s.cpu.idle, s.cfg.P, t, p);
    assert |s.prio[t := p]| == |s.prio| + 1;
    PartsMakeInv(Create(s, t, p));
  }
}

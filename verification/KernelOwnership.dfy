/** Deleting tasks, changing priorities, and mutexes with priority inheritance. */
module KernelOwnership {
  import opened Sequences
  import opened StateLists
  import opened EventItems
  import opened Ownership
  import opened KernelSpec
  import opened KernelOps

  // ------------------------------------------------------------------ delete

  function TerminateLists(l: Lists, t: TaskId): Lists
    requires Placed(l) && t in l.at
  {
    LeavePlaced(l, t);
    JoinTermination(Leave(l, t), t)
  }

  /** `vTaskDelete` on the running task: the idle task frees it later. */
  function DeleteSelf(s: K): K
    requires Inv(s)
  {
    var t := s.cpu.current;
    s.(lists := TerminateLists(s.lists, t), ev := EventItems.Remove(s.ev, t), cleanUp := s.cleanUp + 1)
  }

  lemma TerminateListsOk(l: Lists, prio: map<TaskId, nat>, wake: map<TaskId, nat>, cpu: Cpu, lo: nat, hi: nat, t: TaskId)
    requires ListsOk(l, prio, wake, cpu, lo, hi) && t in l.at && t != cpu.idle && l.at[t] != Termination
    ensures ListsOk(TerminateLists(l, t), prio, wake, cpu, lo, hi)
    ensures TerminateLists(l, t).at == l.at[t := Termination]
    ensures |TerminateLists(l, t).termination| == |l.termination| + 1
    ensures |TerminateLists(l, t).ready| == |l.ready|
  {
    hide Placed, Selection, WakeTimes, Filed, Leave;
    LeaveListsOk(l, prio, wake, cpu, lo, hi, t);
    LeaveTermination(l, t);
    JoinTerminationPlaced(Leave(l, t), t);
    FiledMove(l.at, prio, t, Termination);
    assert l.at[t := Unlisted][t := Termination] == l.at[t := Termination];
  }

  lemma DeleteSelfKeeps(s: K)
    requires Inv(s) && s.cpu.current != s.cpu.idle && s.lists.at[s.cpu.current] != Termination
    ensures Inv(DeleteSelf(s))
  {
    hide Inv, Configured, Owned, ListsOk, EventsOk, Placed, Consistent, TerminateLists, EventItems.Remove;
    InvParts(s);
    var t := s.cpu.current;
    TerminateListsOk(s.lists, s.prio, s.wake, s.cpu, s.clock.now + 1, s.clock.now + s.cfg.M, t);
    ParkEvents(s.ev, s.lists, TerminateLists(s.lists, t), t);
    ConfiguredSame(s.cfg, s.lists.ready, TerminateLists(s.lists, t).ready, s.prio);
    PartsMakeInv(DeleteSelf(s));
  }

  function ForgetLists(l: Lists, t: TaskId): Lists
    requires Placed(l) && t in l.at
  {
    var r := Leave(l, t);
    r.(at := r.at - {t})
  }

  function ForgetEvents(ev: Events, t: TaskId): Events
    requires Consistent(ev) && t in ev.at
  {
    var r := EventItems.Remove(ev, t);
    r.(at := r.at - {t}, value := r.value - {t})
  }

  /** Every trace of a task goes: its state item, its event item and its TCB. */
  function Forget(s: K, t: TaskId): K
    requires Inv(s) && t in s.prio && s.tasks > 0
    requires s.lists.at[t] == Termination ==> s.cleanUp > 0
  {
    s.(prio := s.prio - {t}, lists := ForgetLists(s.lists, t), ev := ForgetEvents(s.ev, t),
       own := s.own.(base := s.own.base - {t}, held := s.own.held - {t}),
       tasks := s.tasks - 1, cleanUp := if s.lists.at[t] == Termination then s.cleanUp - 1 else s.cleanUp)
  }

  lemma ForgetListsOk(l: Lists, prio: map<TaskId, nat>, wake: map<TaskId, nat>, cpu: Cpu, lo: nat, hi: nat, t: TaskId)
    requires ListsOk(l, prio, wake, cpu, lo, hi) && t in l.at && t != cpu.idle && t != cpu.current
    ensures ListsOk(ForgetLists(l, t), prio - {t}, wake, cpu, lo, hi)
    ensures ForgetLists(l, t).at == l.at - {t} && |ForgetLists(l, t).ready| == |l.ready|
    ensures ForgetLists(l, t).termination == if l.at[t] == Termination then Without(l.termination, t) else l.termination
  {
    LeaveListsOk(l, prio, wake, cpu, lo, hi, t);
    ForgetPlaced(Leave(l, t), t);
    assert l.at[t := Unlisted] - {t} == l.at - {t};
  }

  lemma ForgetEventsOk(ev: Events, l: Lists, r: Lists, t: TaskId)
    requires EventsOk(ev, l) && t in l.at && r.at == l.at - {t}
    ensures EventsOk(ForgetEvents(ev, t), r)
    ensures ev.pending == [] ==> ForgetEvents(ev, t).pending == []
  {
    RemoveConsistent(ev, t);
    ForgetConsistent(EventItems.Remove(ev, t), t);
  }

  lemma ForgetOwned(o: Own, prio: map<TaskId, nat>, idle: TaskId, P: nat, t: TaskId)
    requires Owned(o, prio, idle, P) && t in prio && t != idle && o.held[t] == 0
    ensures Owned(o.(base := o.base - {t}, held := o.held - {t}), prio - {t}, idle, P)
  {
    ForgetCounted(o, t);
  }

  ghost predicate MayForget(s: K, t: TaskId) {
    t in s.prio && t != s.cpu.idle && t != s.cpu.current && t in s.own.held && s.own.held[t] == 0
  }

  /** Holds for `vTaskDelete` on another task and for the idle task's clean up of the task deleted first. */
  lemma ForgetKeeps(s: K, t: TaskId)
    requires Inv(s) && MayForget(s, t)
    ensures s.tasks > 0 && (s.lists.at[t] == Termination ==> s.cleanUp > 0)
    ensures Inv(Forget(s, t))
  {
    hide Inv, Owned, ListsOk, EventsOk, Placed, Consistent, ForgetLists, ForgetEvents, Configured;
    InvParts(s);
    OneFewer(s.prio, t);
    TerminationMember(s.lists, t);
    ForgetListsOk(s.lists, s.prio, s.wake, s.cpu, s.clock.now + 1, s.clock.now + s.cfg.M, t);
    ConfiguredFewer(s.cfg, s.lists.ready, ForgetLists(s.lists, t).ready, s.prio, t);
    ForgetEventsOk(s.ev, s.lists, ForgetLists(s.lists, t), t);
    ForgetOwned(s.own, s.prio, s.cpu.idle, s.cfg.P, t);
    PartsMakeInv(Forget(s, t));
  }

  lemma ConfiguredFewer(c: Config, ready: seq<Ring<TaskId>>, ready': seq<Ring<TaskId>>, prio: map<TaskId, nat>, t: TaskId)
    requires Configured(c, ready, prio) && |ready'| == |ready|
    ensures Configured(c, ready', prio - {t})
  {
  }

  lemma OneFewer(m: map<TaskId, nat>, t: TaskId)
    requires t in m
    ensures |m - {t}| == |m| - 1
  {
    assert (m - {t}).Keys == m.Keys - {t};
    assert |m - {t}| == |(m - {t}).Keys| && |m| == |m.Keys|;
  }

  lemma TerminationMember(l: Lists, t: TaskId)
    requires Placed(l) && t in l.at
    ensures l.at[t] == Termination <==> t in l.termination
  {
  }

  // ------------------------------------------------------------------ priorities

  /** A ready task changes ready lists with its priority; for any other only the priority changes. */
  function MoveLists(l: Lists, t: TaskId, p: nat): Lists
    requires Placed(l) && t in l.at && p < |l.ready|
  {
    if l.at[t].Ready? then ToReady(l, t, p) else l
  }

  lemma ToReadyFromReadySelection(l: Lists, prio: map<TaskId, nat>, cpu: Cpu, t: TaskId, p: nat)
    requires Placed(l) && IsReady(l, t) && Selection(l.ready, prio, cpu) && t != cpu.idle && p < |l.ready| && t in prio
    ensures Selection(ToReady(l, t, p).ready, prio[t := p], Recorded(cpu, p))
  {
    LeaveSelection(l.ready, prio, cpu, t, l.at[t].p);
  }

  lemma MoveListsPlaced(l: Lists, t: TaskId, p: nat)
    requires Placed(l) && t in l.at && p < |l.ready|
    ensures Placed(MoveLists(l, t, p))
    ensures MoveLists(l, t, p).at == (if l.at[t].Ready? then l.at[t := Ready(p)] else l.at)
    ensures MoveLists(l, t, p).delayed == l.delayed
    ensures MoveLists(l, t, p).termination == l.termination && |MoveLists(l, t, p).ready| == |l.ready|
  {
    if l.at[t].Ready? {
      ToReadyPlaced(l, t, p);
      assert t !in l.delayed;
    }
  }

  lemma MoveListsOk(l: Lists, prio: map<TaskId, nat>, wake: map<TaskId, nat>, cpu: Cpu, lo: nat, hi: nat, t: TaskId, p: nat)
    requires ListsOk(l, prio, wake, cpu, lo, hi) && t in l.at && t in prio && t != cpu.idle && p < |l.ready|
    ensures ListsOk(MoveLists(l, t, p), prio[t := p], wake, if l.at[t].Ready? then Recorded(cpu, p) else cpu, lo, hi)
  {
    hide Placed, Selection, Filed, ToReady;
    MoveListsPlaced(l, t, p);
    FiledSet(l.at, prio, t, p);
    if l.at[t].Ready? {
      ToReadyFromReadySelection(l, prio, cpu, t, p);
    } else {
      SamePlaceSelection(l.ready, prio, cpu, t, p);
    }
  }

  lemma SamePlaceSelection(ready: seq<Ring<TaskId>>, prio: map<TaskId, nat>, cpu: Cpu, t: TaskId, p: nat)
    requires Selection(ready, prio, cpu) && t != cpu.idle
    ensures Selection(ready, prio[t := p], cpu)
  {
  }

  lemma MoveEvents(ev0: Events, ev: Events, l: Lists, r: Lists, t: TaskId)
    requires EventsOk(ev0, l) && Consistent(ev) && ev.at == ev0.at && t in l.at && r.at.Keys == l.at.Keys
    requires forall u :: u in l.at && !l.at[u].Ready? ==> r.at[u] == l.at[u]
    ensures EventsOk(ev, r)
  {
  }

  /** One task gets a new priority; its ownership record and event item value may change with it. */
  function Repriced(s: K, o: Own, ev: Events, t: TaskId, p: nat): K
    requires Inv(s) && t in s.prio && p < s.cfg.P
  {
    s.(prio := s.prio[t := p], lists := MoveLists(s.lists, t, p), own := o, ev := ev,
       cpu := if s.lists.at[t].Ready? then Recorded(s.cpu, p) else s.cpu)
  }

  lemma RepricedKeeps(s: K, o: Own, ev: Events, t: TaskId, p: nat)
    requires Inv(s) && t in s.prio && t != s.cpu.idle && p < s.cfg.P
    requires Owned(o, s.prio[t := p], s.cpu.idle, s.cfg.P)
    requires Consistent(ev) && ev.at == s.ev.at && ev.pending == s.ev.pending
    ensures Inv(Repriced(s, o, ev, t, p))
  {
    hide Inv, Configured, Owned, ListsOk, EventsOk, Placed, Consistent, MoveLists;
    InvParts(s);
    MoveListsPlaced(s.lists, t, p);
    MoveListsOk(s.lists, s.prio, s.wake, s.cpu, s.clock.now + 1, s.clock.now + s.cfg.M, t, p);
    MoveEvents(s.ev, ev, s.lists, MoveLists(s.lists, t, p), t);
    ConfiguredMore(s.cfg, s.lists.ready, MoveLists(s.lists, t, p).ready, s.prio, t, p);
    assert |s.prio[t := p]| == |s.prio|;
    PartsMakeInv(Repriced(s, o, ev, t, p));
  }

  /** The same, unless the value is in use by an event group. */
  function SetFreeValue(c: Config, ev: Events, t: TaskId, v: nat): Events
    requires t in ev.value
  {
    if ev.value[t] < c.inUse then SetValue(ev, t, v) else ev
  }

  lemma FreeValueConsistent(c: Config, ev: Events, t: TaskId, v: nat)
    requires Consistent(ev) && t in ev.at
    ensures t in ev.value
    ensures var r := SetFreeValue(c, ev, t, v); Consistent(r) && r.at == ev.at && r.pending == ev.pending
  {
    SetValueConsistent(ev, t, v);
  }

  lemma TaskKnown(s: K, t: TaskId)
    requires Inv(s) && t in s.prio
    ensures s.prio[t] < s.cfg.P && t in s.ev.value && t in s.own.base && t in s.own.held && t in s.ev.at
    ensures s.own.base[t] < s.cfg.P
  {
  }

  function Rebased(o: Own, t: TaskId, p: nat): Own {
    o.(base := o.base[t := p])
  }

  /** `vTaskPrioritySet`, with `p` already below configMAX_PRIORITIES. */
  function PrioritySet(s: K, t: TaskId, p: nat): K
    requires Inv(s) && t in s.prio && p < s.cfg.P
  {
    TaskKnown(s, t);
    if s.own.base[t] == p then s else
      Repriced(s, Rebased(s.own, t, p), SetFreeValue(s.cfg, s.ev, t, s.cfg.P - p), t,
               if s.own.base[t] == s.prio[t] then p else s.prio[t])
  }

  lemma PrioritySetKeeps(s: K, t: TaskId, p: nat)
    requires Inv(s) && t in s.prio && t != s.cpu.idle && p < s.cfg.P
    ensures Inv(PrioritySet(s, t, p))
  {
    hide Core, Repriced, Owned, Consistent, ListsOk, EventsOk, Placed, SetFreeValue;
    TaskKnown(s, t);
    CoreParts(s, s.clock.now + 1);
    if s.own.base[t] != p {
      var q := if s.own.base[t] == s.prio[t] then p else s.prio[t];
      BaseOwned(s.own, s.prio, s.cpu.idle, s.cfg.P, t, p, q);
      FreeValueConsistent(s.cfg, s.ev, t, s.cfg.P - p);
      RepricedKeeps(s, Rebased(s.own, t, p), SetFreeValue(s.cfg, s.ev, t, s.cfg.P - p), t, q);
    }
  }

  lemma BaseOwned(o: Own, prio: map<TaskId, nat>, idle: TaskId, P: nat, t: TaskId, p: nat, q: nat)
    requires Owned(o, prio, idle, P) && t in prio && t in o.base && t != idle && p < P
    requires q == if o.base[t] == prio[t] then p else prio[t]
    ensures Owned(Rebased(o, t, p), prio[t := q], idle, P)
  {
    RebaseCounted(o, t, p);
  }

  // ------------------------------------------------------------------ priority inheritance

  /** `vTaskPriorityInherit`, for the running task and the holder of the mutex it wants. */
  function Inherit(s: K, h: TaskId): K
    requires Inv(s) && h in s.prio
  {
    TaskKnown(s, h);
    CoreParts(s, s.clock.now + 1);
    var p := s.prio[s.cpu.current];
    if s.prio[h] < p then Repriced(s, s.own, SetFreeValue(s.cfg, s.ev, h, s.cfg.P - p), h, p) else s
  }

  lemma InheritKeeps(s: K, h: TaskId)
    requires Inv(s) && h in s.prio && h in s.own.held && s.own.held[h] > 0
    ensures Inv(Inherit(s, h))
  {
    hide Core, Repriced, Owned, Consistent, ListsOk, EventsOk, Placed, SetFreeValue;
    TaskKnown(s, h);
    CoreParts(s, s.clock.now + 1);
    var p := s.prio[s.cpu.current];
    if s.prio[h] < p {
      HolderOwned(s.own, s.prio, s.cpu.idle, s.cfg.P, h, p);
      FreeValueConsistent(s.cfg, s.ev, h, s.cfg.P - p);
      RepricedKeeps(s, s.own, SetFreeValue(s.cfg, s.ev, h, s.cfg.P - p), h, p);
    }
  }

  lemma HolderOwned(o: Own, prio: map<TaskId, nat>, idle: TaskId, P: nat, t: TaskId, p: nat)
    requires Owned(o, prio, idle, P) && t in prio && t in o.held && o.held[t] > 0
    ensures t != idle && Owned(o, prio[t := p], idle, P)
  {
    hide Counted;
  }

  /** `xTaskPriorityDisinherit` and the mutex side of giving: back to the base priority with the last mutex. */
  function GiveBack(s: K, m: MutexId): K
    requires Inv(s) && m in s.own.mutexes && s.own.mutexes[m].holder == Task(s.cpu.current)
  {
    var t := s.cpu.current;
    HolderFacts(s, m);
    var o := Release(s.own, t, m);
    if s.prio[t] != s.own.base[t] && o.held[t] == 0
    then Repriced(s, o, SetValue(s.ev, t, s.cfg.P - s.own.base[t]), t, s.own.base[t])
    else s.(own := o)
  }

  lemma HolderFacts(s: K, m: MutexId)
    requires Inv(s) && m in s.own.mutexes && s.own.mutexes[m].holder == Task(s.cpu.current)
    ensures s.cpu.current in s.own.held && s.own.held[s.cpu.current] > 0
    ensures s.cpu.current in s.own.base && s.own.base[s.cpu.current] < s.cfg.P
    ensures s.cpu.current in s.prio && s.cpu.current in s.ev.at && s.cpu.current != s.cpu.idle
  {
    HolderHolds(s.own, s.cpu.current, m);
  }

  lemma ReleaseOwned(o: Own, prio: map<TaskId, nat>, idle: TaskId, P: nat, t: TaskId, m: MutexId)
    requires Owned(o, prio, idle, P) && m in o.mutexes && o.mutexes[m].holder == Task(t)
    ensures t in o.held && o.held[t] > 0 && t in o.base && t in prio
    ensures Owned(Release(o, t, m), prio[t := o.base[t]], idle, P)
    ensures o.held[t] > 1 || prio[t] == o.base[t] ==> Owned(Release(o, t, m), prio, idle, P)
  {
    ReleaseCounted(o, t, m);
  }

  lemma GiveBackKeeps(s: K, m: MutexId)
    requires Inv(s) && m in s.own.mutexes && s.own.mutexes[m].holder == Task(s.cpu.current)
    ensures Inv(GiveBack(s, m))
  {
    hide Core, Repriced, Owned, Consistent, ListsOk, EventsOk, Placed, SetFreeValue;
    var t := s.cpu.current;
    CoreParts(s, s.clock.now + 1);
    HolderFacts(s, m);
    ReleaseOwned(s.own, s.prio, s.cpu.idle, s.cfg.P, t, m);
    var o := Release(s.own, t, m);
    if s.prio[t] != s.own.base[t] && o.held[t] == 0 {
      SetValueConsistent(s.ev, t, s.cfg.P - s.own.base[t]);
      RepricedKeeps(s, o, SetValue(s.ev, t, s.cfg.P - s.own.base[t]), t, s.own.base[t]);
    } else {
      NewOwnKeeps(s, o);
    }
  }

  lemma NewOwnKeeps(s: K, o: Own)
    requires Inv(s) && Owned(o, s.prio, s.cpu.idle, s.cfg.P)
    ensures Inv(s.(own := o))
  {
  }
}

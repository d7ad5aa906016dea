/** Taking, waiting for and giving mutexes, on top of the ownership record and the waiting lists. */
module KernelMutex {
  import opened Sequences
  import opened StateLists
  import opened EventItems
  import opened Ownership
  import opened KernelSpec
  import opened KernelOps
  import opened KernelOwnership

  /** The running task takes a free mutex. */
  function TakeMutex(s: K, m: MutexId): K
    requires Inv(s) && m in s.own.mutexes && s.own.mutexes[m].messages == 1
  {
    CoreParts(s, s.clock.now + 1);
    OwnedParts(s.own, s.prio, s.cpu.idle, s.cfg.P);
    s.(own := Take(s.own, s.cpu.current, m))
  }

  lemma OwnedParts(o: Own, prio: map<TaskId, nat>, idle: TaskId, P: nat)
    requires Owned(o, prio, idle, P)
    ensures Counted(o) && o.held.Keys == prio.Keys == o.base.Keys
  {
  }

  lemma TakeOwned(o: Own, prio: map<TaskId, nat>, idle: TaskId, P: nat, t: TaskId, m: MutexId)
    requires Owned(o, prio, idle, P) && t in prio && t != idle && m in o.mutexes && o.mutexes[m].messages == 1
    ensures t in o.held && Owned(Take(o, t, m), prio, idle, P)
  {
    TakeCounted(o, t, m);
  }

  lemma TakeMutexKeeps(s: K, m: MutexId)
    requires Inv(s) && s.cpu.current != s.cpu.idle && m in s.own.mutexes && s.own.mutexes[m].messages == 1
    ensures Inv(TakeMutex(s, m))
  {
    hide Core, Owned, ListsOk, EventsOk, Placed, Consistent, Take;
    CoreParts(s, s.clock.now + 1);
    TakeOwned(s.own, s.prio, s.cpu.idle, s.cfg.P, s.cpu.current, m);
    NewOwnKeeps(s, Take(s.own, s.cpu.current, m));
  }

  /** The running task finds the mutex held: the holder inherits, then the task joins the waiting list. */
  function BlockOnMutex(s: K, m: MutexId, ticks: nat): K
    requires Inv(s) && IsReady(s.lists, s.cpu.current) && m in s.own.mutexes && s.own.mutexes[m].messages == 0
    requires m in s.ev.waiting
  {
    HeldMutex(s, m);
    var h := s.own.mutexes[m].holder.id;
    InheritKeeps(s, h);
    InheritFrame(s, h);
    PlaceOnEventList(Inherit(s, h), m, ticks)
  }

  /** A mutex that is not free has a holder, and the holder's count is not zero. */
  lemma HeldMutex(s: K, m: MutexId)
    requires Inv(s) && m in s.own.mutexes && s.own.mutexes[m].messages == 0
    ensures s.own.mutexes[m].holder.Task?
    ensures var h := s.own.mutexes[m].holder.id; h in s.prio && h in s.own.held && s.own.held[h] > 0
  {
    if s.own.mutexes[m].holder.Task? { HolderHolds(s.own, s.own.mutexes[m].holder.id, m); }
  }

  function Highest(p: nat, q: nat): nat { if p < q then q else p }

  lemma InheritFrame(s: K, h: TaskId)
    requires Inv(s) && h in s.prio && IsReady(s.lists, s.cpu.current)
    ensures var r := Inherit(s, h);
      && r.cpu.current == s.cpu.current && r.cpu.idle == s.cpu.idle && r.cfg == s.cfg && r.clock == s.clock
      && IsReady(r.lists, s.cpu.current) && r.own == s.own && r.ev.waiting == s.ev.waiting && r.ev.at == s.ev.at
      && h in r.prio && r.prio == s.prio[h := r.prio[h]]
      && r.prio[h] == Highest(s.prio[h], s.prio[s.cpu.current])
  {
    hide Core, Owned, EventsOk, ListsOk, Placed, Consistent, MoveLists;
    CoreParts(s, s.clock.now + 1);
    TaskKnown(s, h);
    if s.prio[h] < s.prio[s.cpu.current] { MoveListsPlaced(s.lists, h, s.prio[s.cpu.current]); }
  }

  lemma BlockOnMutexKeeps(s: K, m: MutexId, ticks: nat)
    requires Inv(s) && IsReady(s.lists, s.cpu.current) && s.cpu.current != s.cpu.idle && 1 <= ticks < s.cfg.M
    requires m in s.own.mutexes && s.own.mutexes[m].messages == 0 && m in s.ev.waiting
    ensures Inv(BlockOnMutex(s, m, ticks))
  {
    hide Core, Inherit, PlaceOnEventList;
    HeldMutex(s, m);
    var h := s.own.mutexes[m].holder.id;
    InheritKeeps(s, h);
    InheritFrame(s, h);
    PlaceOnEventListKeeps(Inherit(s, h), m, ticks);
  }

  /** The holder gives a mutex; the waiter with the highest priority is woken. */
  function GiveMutex(s: K, m: MutexId): K
    requires Inv(s) && m in s.own.mutexes && s.own.mutexes[m].holder == Task(s.cpu.current) && m in s.ev.waiting
  {
    GiveBackKeeps(s, m);
    GiveBackFrame(s, m);
    var r := GiveBack(s, m);
    if r.ev.waiting[m] == [] then r else WakeHead(r, m)
  }

  lemma GiveBackFrame(s: K, m: MutexId)
    requires Inv(s) && m in s.own.mutexes && s.own.mutexes[m].holder == Task(s.cpu.current)
    ensures GiveBack(s, m).ev.waiting == s.ev.waiting && GiveBack(s, m).ev.at == s.ev.at
    ensures GiveBack(s, m).cpu.current == s.cpu.current && GiveBack(s, m).clock == s.clock
    ensures GiveBack(s, m).cfg == s.cfg && GiveBack(s, m).wake == s.wake
    ensures s.cpu.current in s.own.held && s.own.held[s.cpu.current] > 0
    ensures GiveBack(s, m).own == Release(s.own, s.cpu.current, m)
  {
    hide Core, Owned, EventsOk, ListsOk, Placed, Consistent, MoveLists;
    HolderFacts(s, m);
  }

  lemma GiveMutexKeeps(s: K, m: MutexId)
    requires Inv(s) && m in s.own.mutexes && s.own.mutexes[m].holder == Task(s.cpu.current) && m in s.ev.waiting
    ensures Inv(GiveMutex(s, m))
  {
    hide Core, GiveBack, WakeHead;
    GiveBackKeeps(s, m);
    GiveBackFrame(s, m);
    var r := GiveBack(s, m);
    if r.ev.waiting[m] != [] { WakeHeadKeeps(r, m); }
  }

  /** `xQueueTakeMutexRecursive`, when it does not have to wait. */
  function TakeRecursive(s: K, m: MutexId): K
    requires Inv(s) && m in s.own.mutexes
    requires s.own.mutexes[m].holder == Task(s.cpu.current) || s.own.mutexes[m].messages == 1
  {
    if s.own.mutexes[m].holder == Task(s.cpu.current)
    then s.(own := Recount(s.own, m, s.own.mutexes[m].count + 1))
    else TakeMutex(s, m)
  }

  /** `xQueueGiveMutexRecursive`: a task that is not the holder changes nothing. */
  function GiveRecursive(s: K, m: MutexId): K
    requires Inv(s) && m in s.own.mutexes && m in s.ev.waiting
  {
    if s.own.mutexes[m].holder != Task(s.cpu.current) then s
    else if s.own.mutexes[m].count <= 1 then GiveMutex(s, m)
    else s.(own := Recount(s.own, m, s.own.mutexes[m].count - 1))
  }

  lemma RecountOwned(o: Own, prio: map<TaskId, nat>, idle: TaskId, P: nat, m: MutexId, n: nat)
    requires Owned(o, prio, idle, P) && m in o.mutexes && o.mutexes[m].holder.Task? && n > 0
    ensures Owned(Recount(o, m, n), prio, idle, P)
  {
    RecountCounted(o, m, n);
  }

  lemma TakeRecursiveKeeps(s: K, m: MutexId)
    requires Inv(s) && m in s.own.mutexes && s.cpu.current != s.cpu.idle
    requires s.own.mutexes[m].holder == Task(s.cpu.current) || s.own.mutexes[m].messages == 1
    ensures Inv(TakeRecursive(s, m))
  {
    hide Core, TakeMutex, Owned, ListsOk, EventsOk, Placed, Consistent;
    CoreParts(s, s.clock.now + 1);
    if s.own.mutexes[m].holder == Task(s.cpu.current) {
      RecountOwned(s.own, s.prio, s.cpu.idle, s.cfg.P, m, s.own.mutexes[m].count + 1);
      NewOwnKeeps(s, Recount(s.own, m, s.own.mutexes[m].count + 1));
    } else {
      TakeMutexKeeps(s, m);
    }
  }

  lemma GiveRecursiveKeeps(s: K, m: MutexId)
    requires Inv(s) && m in s.own.mutexes && m in s.ev.waiting
    ensures Inv(GiveRecursive(s, m))
  {
    hide Core, GiveMutex, Owned, ListsOk, EventsOk, Placed, Consistent;
    CoreParts(s, s.clock.now + 1);
    if s.own.mutexes[m].holder == Task(s.cpu.current) {
      if s.own.mutexes[m].count <= 1 {
        GiveMutexKeeps(s, m);
      } else {
        RecountOwned(s.own, s.prio, s.cpu.idle, s.cfg.P, m, s.own.mutexes[m].count - 1);
        NewOwnKeeps(s, Recount(s.own, m, s.own.mutexes[m].count - 1));
      }
    }
  }

  /** `prvInitialiseMutex`, on a list nobody waits on yet. */
  function CreateMutex(s: K, m: MutexId, recursive: bool): K {
    s.(own := Ownership.Create(s.own, m, recursive), ev := s.ev.(waiting := s.ev.waiting[m := []]))
  }

  /** A queue or an event group brings a new waiting list. */
  function CreateList(s: K, l: ListId): K {
    s.(ev := s.ev.(waiting := s.ev.waiting[l := []]))
  }

  lemma CreateListKeeps(s: K, l: ListId)
    requires Inv(s) && l !in s.ev.waiting
    ensures Inv(CreateList(s, l))
  {
    hide Owned, ListsOk;
    NewListEvents(s.ev, s.lists, l);
  }

  lemma NewListEvents(ev: Events, l: Lists, n: ListId)
    requires EventsOk(ev, l) && n !in ev.waiting
    ensures EventsOk(ev.(waiting := ev.waiting[n := []]), l)
  {
    NewListConsistent(ev, n);
  }

  lemma CreateMutexOwned(o: Own, prio: map<TaskId, nat>, idle: TaskId, P: nat, m: MutexId, recursive: bool)
    requires Owned(o, prio, idle, P) && m !in o.mutexes
    ensures Owned(Ownership.Create(o, m, recursive), prio, idle, P)
  {
    CreateCounted(o, m, recursive);
  }

  lemma CreateMutexKeeps(s: K, m: MutexId, recursive: bool)
    requires Inv(s) && m !in s.own.mutexes && m !in s.ev.waiting
    ensures Inv(CreateMutex(s, m, recursive))
  {
    hide Core, Owned, ListsOk, EventsOk, Placed, Consistent;
    CoreParts(s, s.clock.now + 1);
    CreateMutexOwned(s.own, s.prio, s.cpu.idle, s.cfg.P, m, recursive);
    NewOwnKeeps(s, Ownership.Create(s.own, m, recursive));
    CreateListKeeps(s.(own := Ownership.Create(s.own, m, recursive)), m);
  }
}

/**
 Mutexes as queue.c keeps them, and the per-task record of what is held: `uxMutexesHeld`,
 `uxBasePriority` and the inherited `uxPriority`.
 */
module Ownership {

  type TaskId = nat
  type MutexId = nat

  datatype Holder = Nobody | Task(id: TaskId)

  /** `messages` is uxMessagesWaiting; `count` is uxRecursiveCallCount, used by recursive mutexes. */
  datatype Mutex = Mutex(messages: nat, holder: Holder, recursive: bool, count: nat)

  datatype Own = Own(base: map<TaskId, nat>, held: map<TaskId, nat>, mutexes: map<MutexId, Mutex>)

  function HeldBy(o: Own, t: TaskId): set<MutexId> {
    set m | m in o.mutexes && o.mutexes[m].holder == Task(t)
  }

  /** A mutex is free exactly when it has no holder, and every task's count is the mutexes naming it. */
  ghost predicate Counted(o: Own) {
    && o.base.Keys == o.held.Keys
    && (forall m :: m in o.mutexes ==>
          && o.mutexes[m].messages <= 1
          && (o.mutexes[m].messages == 1 <==> o.mutexes[m].holder == Nobody)
          && (o.mutexes[m].holder.Task? ==> o.mutexes[m].holder.id in o.held)
          && (o.mutexes[m].recursive ==> (o.mutexes[m].count == 0 <==> o.mutexes[m].holder == Nobody)))
    && (forall t :: t in o.held ==> o.held[t] == |HeldBy(o, t)|)
  }

  /** A task that holds no mutex runs at its own priority. */
  ghost predicate Settled(o: Own, prio: map<TaskId, nat>)
    requires o.base.Keys == o.held.Keys == prio.Keys
  {
    forall t :: t in prio && o.held[t] == 0 ==> prio[t] == o.base[t]
  }

  /** `prvInitialiseMutex`. */
  function Create(o: Own, m: MutexId, recursive: bool): Own {
    o.(mutexes := o.mutexes[m := Mutex(1, Nobody, recursive, 0)])
  }

  lemma CreateCounted(o: Own, m: MutexId, recursive: bool)
    requires Counted(o) && m !in o.mutexes
    ensures Counted(Create(o, m, recursive))
  {
    forall t | t in o.held ensures o.held[t] == |HeldBy(Create(o, m, recursive), t)| {
      assert HeldBy(Create(o, m, recursive), t) == HeldBy(o, t);
    }
  }

  /** A successful `xQueueGenericReceive` on a mutex, with its first recursive count if it has one. */
  function Take(o: Own, t: TaskId, m: MutexId): Own
    requires m in o.mutexes && t in o.held
  {
    var x := o.mutexes[m];
    o.(mutexes := o.mutexes[m := x.(messages := 0, holder := Task(t), count := if x.recursive then 1 else x.count)],
       held := o.held[t := o.held[t] + 1])
  }

  lemma TakeCounted(o: Own, t: TaskId, m: MutexId)
    requires Counted(o) && m in o.mutexes && t in o.held && o.mutexes[m].messages == 1
    ensures Counted(Take(o, t, m))
  {
    hide HeldBy;
    var r := Take(o, t, m);
    TakeOthers(o, t, m);
    forall u | u in r.held ensures r.held[u] == |HeldBy(r, u)| {
      if u == t { TakeOwn(o, t, m); }
    }
  }

  lemma TakeOwn(o: Own, t: TaskId, m: MutexId)
    requires Counted(o) && m in o.mutexes && t in o.held && o.mutexes[m].messages == 1
    ensures |HeldBy(Take(o, t, m), t)| == |HeldBy(o, t)| + 1
  {
    assert HeldBy(Take(o, t, m), t) == HeldBy(o, t) + {m} && m !in HeldBy(o, t);
  }

  lemma TakeOthers(o: Own, t: TaskId, m: MutexId)
    requires Counted(o) && m in o.mutexes && t in o.held && o.mutexes[m].messages == 1
    ensures forall u :: u in o.held && u != t ==> HeldBy(Take(o, t, m), u) == HeldBy(o, u)
  {
    var r := Take(o, t, m);
    forall u | u in o.held && u != t ensures HeldBy(r, u) == HeldBy(o, u) {
      assert forall k :: k in HeldBy(r, u) <==> k in HeldBy(o, u);
    }
  }

  /** The mutex side of `prvCopyDataToQueue`, with `xTaskPriorityDisinherit`'s count. */
  function Release(o: Own, t: TaskId, m: MutexId): Own
    requires m in o.mutexes && t in o.held && o.held[t] > 0
  {
    o.(mutexes := o.mutexes[m := o.mutexes[m].(messages := 1, holder := Nobody, count := 0)],
       held := o.held[t := o.held[t] - 1])
  }

  lemma HolderHolds(o: Own, t: TaskId, m: MutexId)
    requires Counted(o) && m in o.mutexes && o.mutexes[m].holder == Task(t)
    ensures t in o.held && o.held[t] > 0
  {
    assert m in HeldBy(o, t);
  }

  lemma ReleaseCounted(o: Own, t: TaskId, m: MutexId)
    requires Counted(o) && m in o.mutexes && o.mutexes[m].holder == Task(t)
    ensures t in o.held && o.held[t] > 0 && Counted(Release(o, t, m))
  {
    HolderHolds(o, t, m);
    var r := Release(o, t, m);
    forall u | u in r.held ensures r.held[u] == |HeldBy(r, u)| {
      if u == t {
        assert HeldBy(r, u) == HeldBy(o, u) - {m} && m in HeldBy(o, u);
      } else {
        assert HeldBy(r, u) == HeldBy(o, u);
      }
    }
  }

  /** Nested takes and gives of a recursive mutex its holder already has. */
  function Recount(o: Own, m: MutexId, n: nat): Own
    requires m in o.mutexes
  {
    o.(mutexes := o.mutexes[m := o.mutexes[m].(count := n)])
  }

  lemma RecountCounted(o: Own, m: MutexId, n: nat)
    requires Counted(o) && m in o.mutexes && o.mutexes[m].holder.Task? && n > 0
    ensures Counted(Recount(o, m, n))
  {
    forall t | t in o.held ensures o.held[t] == |HeldBy(Recount(o, m, n), t)| {
      assert HeldBy(Recount(o, m, n), t) == HeldBy(o, t);
    }
  }

  lemma NewTaskCounted(o: Own, t: TaskId, p: nat)
    requires Counted(o) && t !in o.held
    ensures Counted(o.(base := o.base[t := p], held := o.held[t := 0]))
  {
    var r := o.(base := o.base[t := p], held := o.held[t := 0]);
    forall u | u in r.held ensures r.held[u] == |HeldBy(r, u)| {
      assert HeldBy(r, u) == HeldBy(o, u);
    }
    assert HeldBy(r, t) == {};
  }

  lemma ForgetCounted(o: Own, t: TaskId)
    requires Counted(o) && t in o.held && o.held[t] == 0
    ensures Counted(o.(base := o.base - {t}, held := o.held - {t}))
  {
    var r := o.(base := o.base - {t}, held := o.held - {t});
    assert HeldBy(o, t) == {};
    forall u | u in r.held ensures r.held[u] == |HeldBy(r, u)| {
      assert HeldBy(r, u) == HeldBy(o, u);
    }
    forall m | m in o.mutexes ensures o.mutexes[m].holder != Task(t) {
      assert m in HeldBy(o, t) <==> o.mutexes[m].holder == Task(t);
    }
  }

  lemma RebaseCounted(o: Own, t: TaskId, p: nat)
    requires Counted(o) && t in o.base
    ensures Counted(o.(base := o.base[t := p]))
  {
    var r := o.(base := o.base[t := p]);
    forall u | u in r.held ensures r.held[u] == |HeldBy(r, u)| {
      assert HeldBy(r, u) == HeldBy(o, u);
    }
  }
}

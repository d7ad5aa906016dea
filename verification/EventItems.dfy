/**
 The lists a task's event list item can be in: one list per kernel object that tasks wait on, and the
 pending ready list that holds tasks woken while the scheduler is suspended.
 */
module EventItems {
  import opened Sequences

  type TaskId = nat
  type ListId = nat

  /** `pvContainer` of the event item. */
  datatype Place = Nowhere | Pending | On(list: ListId)

  /** `value` is the item value: priority order for queues, or bits marked in use for event groups. */
  datatype Events = Events(at: map<TaskId, Place>, pending: seq<TaskId>,
                           waiting: map<ListId, seq<TaskId>>, value: map<TaskId, nat>)

  /** Each event item is in at most one list, the one its container names. */
  ghost predicate Consistent(e: Events) {
    && e.value.Keys == e.at.Keys
    && Holds(e.pending, e.at, Pending)
    && (forall l :: l in e.waiting ==> Holds(e.waiting[l], e.at, On(l)))
    && (forall t :: t in e.at && e.at[t].On? ==> e.at[t].list in e.waiting)
  }

  /** `uxListRemove(&xEventListItem)` for an item that is in a list, and nothing for one that is not. */
  function Remove(e: Events, t: TaskId): Events
    requires Consistent(e) && t in e.at
  {
    match e.at[t]
    case Nowhere => e
    case Pending => e.(pending := Without(e.pending, t), at := e.at[t := Nowhere])
    case On(l) => e.(waiting := e.waiting[l := Without(e.waiting[l], t)], at := e.at[t := Nowhere])
  }

  lemma RemoveConsistent(e: Events, t: TaskId)
    requires Consistent(e) && t in e.at
    ensures Consistent(Remove(e, t))
    ensures Remove(e, t).at == e.at[t := Nowhere] && Remove(e, t).value == e.value
  {
    var r := Remove(e, t);
    match e.at[t]
    case Nowhere =>
      assert e.at[t := Nowhere] == e.at;
    case Pending =>
      forall l | l in e.waiting ensures Holds(e.waiting[l], r.at, On(l)) {
        assert Holds(e.waiting[l], e.at, On(l));
      }
    case On(k) =>
      forall l | l in r.waiting ensures Holds(r.waiting[l], r.at, On(l)) {
        assert Holds(e.waiting[l], e.at, On(l));
      }
  }

  /** `vListInsert` on a waiting list: priority order, first come first served among equals. */
  function InsertSorted(e: Events, l: ListId, t: TaskId): Events
    requires Consistent(e) && l in e.waiting && t in e.at
  {
    e.(waiting := e.waiting[l := SortedInsert(e.waiting[l], e.value, t)], at := e.at[t := On(l)])
  }

  lemma InsertSortedConsistent(e: Events, l: ListId, t: TaskId)
    requires Consistent(e) && l in e.waiting && t in e.at && e.at[t] == Nowhere
    ensures Consistent(InsertSorted(e, l, t))
  {
    assert forall u :: u in e.waiting[l] ==> u in e.value;
    PlaceConsistent(e, l, t, SortedInsert(e.waiting[l], e.value, t), e.value);
  }

  /** A waiting list with one more item, wherever in the list it went. */
  lemma PlaceConsistent(e: Events, l: ListId, t: TaskId, waiting: seq<TaskId>, value: map<TaskId, nat>)
    requires Consistent(e) && l in e.waiting && t in e.at && e.at[t] == Nowhere && value.Keys == e.value.Keys
    requires NoDup(waiting) && forall u :: u in waiting <==> u == t || u in e.waiting[l]
    ensures Consistent(e.(waiting := e.waiting[l := waiting], at := e.at[t := On(l)], value := value))
  {
    var r := e.(waiting := e.waiting[l := waiting], at := e.at[t := On(l)], value := value);
    forall k | k in r.waiting ensures Holds(r.waiting[k], r.at, On(k)) {
      assert Holds(e.waiting[k], e.at, On(k));
    }
  }

  /** `vListInsertEnd` on a waiting list, with a new item value. */
  function Append(e: Events, l: ListId, t: TaskId, v: nat): Events
    requires Consistent(e) && l in e.waiting && t in e.at
  {
    e.(waiting := e.waiting[l := e.waiting[l] + [t]], at := e.at[t := On(l)], value := e.value[t := v])
  }

  lemma AppendConsistent(e: Events, l: ListId, t: TaskId, v: nat)
    requires Consistent(e) && l in e.waiting && t in e.at && e.at[t] == Nowhere
    ensures Consistent(Append(e, l, t, v))
  {
    PlaceConsistent(e, l, t, e.waiting[l] + [t], e.value[t := v]);
  }

  /** `vListInsertEnd` on the pending ready list, from wherever the item was. */
  function Defer(e: Events, t: TaskId): Events
    requires Consistent(e) && t in e.at
  {
    var r := Remove(e, t);
    r.(pending := r.pending + [t], at := r.at[t := Pending])
  }

  lemma DeferConsistent(e: Events, t: TaskId)
    requires Consistent(e) && t in e.at
    ensures Consistent(Defer(e, t))
    ensures Defer(e, t).at == e.at[t := Pending] && Defer(e, t).value == e.value
  {
    RemoveConsistent(e, t);
    PendConsistent(Remove(e, t), t);
  }

  lemma PendConsistent(e: Events, t: TaskId)
    requires Consistent(e) && t in e.at && e.at[t] == Nowhere
    ensures Consistent(e.(pending := e.pending + [t], at := e.at[t := Pending]))
  {
    forall l | l in e.waiting ensures Holds(e.waiting[l], e.at[t := Pending], On(l)) {
      assert Holds(e.waiting[l], e.at, On(l));
    }
  }

  lemma NewTaskConsistent(e: Events, t: TaskId, v: nat)
    requires Consistent(e) && t !in e.at
    ensures Consistent(e.(at := e.at[t := Nowhere], value := e.value[t := v]))
  {
  }

  lemma ForgetConsistent(e: Events, t: TaskId)
    requires Consistent(e) && t in e.at && e.at[t] == Nowhere
    ensures Consistent(e.(at := e.at - {t}, value := e.value - {t}))
  {
  }

  lemma NewListConsistent(e: Events, l: ListId)
    requires Consistent(e) && l !in e.waiting
    ensures Consistent(e.(waiting := e.waiting[l := []]))
  {
  }

  lemma SetValueConsistent(e: Events, t: TaskId, v: nat)
    requires Consistent(e) && t in e.at
    ensures Consistent(e.(value := e.value[t := v]))
  {
  }

  // ------------------------------------------------------------------ at most one list

  /** How many lists hold the task's event item. */
  function Places(e: Events, t: TaskId): nat {
    |set l | l in e.waiting && t in e.waiting[l]| + if t in e.pending then 1 else 0
  }

  lemma AtMostOnePlace(e: Events, t: TaskId)
    requires Consistent(e) && t in e.at
    ensures Places(e, t) == if e.at[t] == Nowhere then 0 else 1
  {
    var on := set l | l in e.waiting && t in e.waiting[l];
    forall l | l in e.waiting ensures t in e.waiting[l] <==> e.at[t] == On(l) {
      assert Holds(e.waiting[l], e.at, On(l));
    }
    assert on == if e.at[t].On? then {e.at[t].list} else {};
  }
}

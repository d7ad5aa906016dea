/**
 The lists a task's state list item can be in: one ready list for each priority, the delayed list, the
 suspended list and the termination list.
 */
module StateLists {
  import opened Sequences

  type TaskId = nat

  /** `pvContainer` of the state item. */
  datatype Home = Unlisted | Ready(p: nat) | Delayed | Suspended | Termination

  datatype Lists = Lists(at: map<TaskId, Home>, ready: seq<Ring<TaskId>>, delayed: seq<TaskId>,
                         suspended: seq<TaskId>, termination: seq<TaskId>)

  ghost predicate RingsHold(ready: seq<Ring<TaskId>>, at: map<TaskId, Home>) {
    && (forall p :: 0 <= p < |ready| ==> ready[p].index <= |ready[p].items| && Holds(ready[p].items, at, Ready(p)))
    && (forall t :: t in at && at[t].Ready? ==> at[t].p < |ready|)
  }

  /** Each state item is in the list its container names and in no other. */
  ghost predicate Placed(l: Lists) {
    && RingsHold(l.ready, l.at)
    && Holds(l.delayed, l.at, Delayed)
    && Holds(l.suspended, l.at, Suspended)
    && Holds(l.termination, l.at, Termination)
  }

  /** Every task is in some list, and a ready one in the list of its own priority. */
  ghost predicate Filed(at: map<TaskId, Home>, prio: map<TaskId, nat>) {
    && at.Keys == prio.Keys
    && (forall t :: t in at ==> at[t] != Unlisted && (at[t].Ready? ==> at[t].p == prio[t]))
  }

  lemma FiledMove(at: map<TaskId, Home>, prio: map<TaskId, nat>, t: TaskId, home: Home)
    requires Filed(at, prio) && t in at && home != Unlisted && (home.Ready? ==> home.p == prio[t])
    ensures Filed(at[t := home], prio)
  {
  }

  lemma FiledSet(at: map<TaskId, Home>, prio: map<TaskId, nat>, t: TaskId, p: nat)
    requires Filed(at, prio) && t in at
    ensures Filed(if at[t].Ready? then at[t := Ready(p)] else at, prio[t := p])
  {
  }

  predicate IsReady(l: Lists, t: TaskId) {
    t in l.at && l.at[t].Ready?
  }

  predicate Blocked(l: Lists, t: TaskId) {
    t in l.at && (l.at[t] == Delayed || l.at[t] == Suspended)
  }

  // ------------------------------------------------------------------ moves

  /** `uxListRemove(&xStateListItem)`. */
  function Leave(l: Lists, t: TaskId): (r: Lists)
    requires Placed(l) && t in l.at
    ensures |r.ready| == |l.ready|
  {
    var e := l.(at := l.at[t := Unlisted]);
    match l.at[t]
    case Unlisted => l
    case Ready(p) => e.(ready := l.ready[p := RingRemove(l.ready[p], t)])
    case Delayed => e.(delayed := Without(l.delayed, t))
    case Suspended => e.(suspended := Without(l.suspended, t))
    case Termination => e.(termination := Without(l.termination, t))
  }

  lemma LeavePlaced(l: Lists, t: TaskId)
    requires Placed(l) && t in l.at
    ensures Placed(Leave(l, t))
    ensures Leave(l, t).at == l.at[t := Unlisted]
  {
    var h := l.at[t];
    if h.Ready? {
      var r := Leave(l, t);
      forall q | 0 <= q < |l.ready| ensures Holds(r.ready[q].items, r.at, Ready(q)) {
        assert Holds(l.ready[q].items, l.at, Ready(q));
      }
    } else if h == Unlisted {
      assert l.at[t := Unlisted] == l.at;
    } else {
      RingsMove(l.ready, l.at, t, Unlisted);
    }
  }

  /** A task moving between two places other than these rings leaves them correct. */
  lemma RingsMove(ready: seq<Ring<TaskId>>, at: map<TaskId, Home>, t: TaskId, home: Home)
    requires RingsHold(ready, at) && t in at && !at[t].Ready? && !home.Ready?
    ensures RingsHold(ready, at[t := home])
  {
    forall p | 0 <= p < |ready| ensures Holds(ready[p].items, at[t := home], Ready(p)) {
      assert Holds(ready[p].items, at, Ready(p));
    }
  }

  /** `vListInsertEnd` on ready list `p`. */
  function JoinReady(l: Lists, t: TaskId, p: nat): Lists
    requires Placed(l) && p < |l.ready|
  {
    l.(ready := l.ready[p := RingInsertEnd(l.ready[p], t)], at := l.at[t := Ready(p)])
  }

  lemma JoinReadyPlaced(l: Lists, t: TaskId, p: nat)
    requires Placed(l) && p < |l.ready| && t in l.at && l.at[t] == Unlisted
    ensures Placed(JoinReady(l, t, p))
  {
    hide RingInsertEnd;
    var r := JoinReady(l, t, p);
    forall q | 0 <= q < |l.ready| ensures Holds(r.ready[q].items, r.at, Ready(q)) {
      assert Holds(l.ready[q].items, l.at, Ready(q));
    }
  }

  function JoinSuspended(l: Lists, t: TaskId): Lists {
    l.(suspended := l.suspended + [t], at := l.at[t := Suspended])
  }

  lemma JoinSuspendedPlaced(l: Lists, t: TaskId)
    requires Placed(l) && t in l.at && l.at[t] == Unlisted
    ensures Placed(JoinSuspended(l, t))
  {
  }

  function JoinTermination(l: Lists, t: TaskId): Lists {
    l.(termination := l.termination + [t], at := l.at[t := Termination])
  }

  lemma JoinTerminationPlaced(l: Lists, t: TaskId)
    requires Placed(l) && t in l.at && l.at[t] == Unlisted
    ensures Placed(JoinTermination(l, t))
  {
  }

  function JoinDelayed(l: Lists, t: TaskId, wake: map<TaskId, nat>): Lists
    requires t in wake && forall u :: u in l.delayed ==> u in wake
  {
    l.(delayed := SortedInsert(l.delayed, wake, t), at := l.at[t := Delayed])
  }

  lemma JoinDelayedPlaced(l: Lists, t: TaskId, wake: map<TaskId, nat>)
    requires Placed(l) && t in l.at && l.at[t] == Unlisted
    requires t in wake && forall u :: u in l.delayed ==> u in wake
    ensures Placed(JoinDelayed(l, t, wake))
  {
  }

  lemma NewTaskPlaced(l: Lists, t: TaskId)
    requires Placed(l) && t !in l.at
    ensures Placed(l.(at := l.at[t := Unlisted]))
  {
  }

  lemma ForgetPlaced(l: Lists, t: TaskId)
    requires Placed(l) && t in l.at && l.at[t] == Unlisted
    ensures Placed(l.(at := l.at - {t}))
  {
  }

  // ------------------------------------------------------------------ the partition, and its size

  function One(b: bool): nat { if b then 1 else 0 }

  /** How many of the lists hold the task's state item. */
  function Homes(l: Lists, t: TaskId): nat {
    |set p | 0 <= p < |l.ready| && t in l.ready[p].items|
    + One(t in l.delayed) + One(t in l.suspended) + One(t in l.termination)
  }

  /** Each task's state item is in exactly one list; if that is a ready list, it is its priority's. */
  lemma ExactlyOneHome(l: Lists, prio: map<TaskId, nat>, t: TaskId)
    requires Placed(l) && Filed(l.at, prio) && t in prio
    ensures Homes(l, t) == 1
    ensures forall p :: 0 <= p < |l.ready| && t in l.ready[p].items ==> p == prio[t]
  {
    var in_ := set p | 0 <= p < |l.ready| && t in l.ready[p].items;
    assert in_ == if l.at[t].Ready? then {l.at[t].p} else {};
  }

  function Lengths(rs: seq<Ring<TaskId>>): nat {
    if rs == [] then 0 else |rs[0].items| + Lengths(rs[1..])
  }

  function At(at: map<TaskId, Home>, home: Home): set<TaskId> {
    set t | t in at && at[t] == home
  }

  /** The list lengths add up to the number of tasks. */
  lemma LengthsSumToTasks(l: Lists, prio: map<TaskId, nat>)
    requires Placed(l) && Filed(l.at, prio)
    ensures Lengths(l.ready) + |l.delayed| + |l.suspended| + |l.termination| == |prio|
  {
    var r := set t | t in l.at && l.at[t].Ready?;
    NoDupCardinality(l.delayed, At(l.at, Delayed));
    NoDupCardinality(l.suspended, At(l.at, Suspended));
    NoDupCardinality(l.termination, At(l.at, Termination));
    ReadySize(l, r);
    SplitSizes(l.at, r);
    assert |prio| == |prio.Keys| == |l.at.Keys|;
  }

  lemma SplitSizes(at: map<TaskId, Home>, r: set<TaskId>)
    requires forall t :: t in at ==> at[t] != Unlisted
    requires r == set t | t in at && at[t].Ready?
    ensures |at.Keys| == |r| + |At(at, Delayed)| + |At(at, Suspended)| + |At(at, Termination)|
  {
    var d, s, x := At(at, Delayed), At(at, Suspended), At(at, Termination);
    assert at.Keys == r + d + s + x;
    assert |r + d| == |r| + |d| && |r + d + s| == |r + d| + |s| && |r + d + s + x| == |r + d + s| + |x|;
  }

  lemma {:induction false} NoDupCardinality(s: seq<TaskId>, members: set<TaskId>)
    requires NoDup(s) && forall t :: t in members <==> t in s
    ensures |members| == |s|
  {
    if s == [] {
      assert members == {};
    } else {
      NoDupCardinality(s[1..], members - {s[0]});
    }
  }

  lemma ReadySize(l: Lists, r: set<TaskId>)
    requires Placed(l) && r == set t | t in l.at && l.at[t].Ready?
    ensures |r| == Lengths(l.ready)
  {
    ReadyCardinality(l.ready, l.at, |l.ready|);
    assert l.ready[..|l.ready|] == l.ready;
    assert r == ReadyBelow(l.at, |l.ready|);
  }

  function ReadyBelow(at: map<TaskId, Home>, n: nat): set<TaskId> {
    set t | t in at && at[t].Ready? && at[t].p < n
  }

  lemma {:induction false} ReadyCardinality(rs: seq<Ring<TaskId>>, at: map<TaskId, Home>, n: nat)
    requires RingsHold(rs, at) && n <= |rs|
    ensures |ReadyBelow(at, n)| == Lengths(rs[..n])
  {
    if n == 0 {
      assert ReadyBelow(at, 0) == {};
    } else {
      ReadyCardinality(rs, at, n - 1);
      assert rs[..n] == rs[..n - 1] + [rs[n - 1]];
      LengthsAppend(rs[..n - 1], rs[n - 1]);
      assert Holds(rs[n - 1].items, at, Ready(n - 1));
      NoDupCardinality(rs[n - 1].items, At(at, Ready(n - 1)));
      assert ReadyBelow(at, n) == ReadyBelow(at, n - 1) + At(at, Ready(n - 1));
    }
  }

  lemma {:induction false} LengthsAppend(rs: seq<Ring<TaskId>>, r: Ring<TaskId>)
    ensures Lengths(rs + [r]) == Lengths(rs) + |r.items|
  {
    if rs != [] {
      assert (rs + [r])[1..] == rs[1..] + [r];
      LengthsAppend(rs[1..], r);
    }
  }
}

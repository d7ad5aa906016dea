/**
 The two delayed lists of tasks.c, on values.  Wake times are stored modulo M; an item whose time lies
 in the epoch of the current tick is in the current list, one in the next epoch in the overflow list.
 Laid end to end the two lists are the one delayed list of KernelSpec, in absolute order.
 */
module DelayedLists {
  import opened Modular
  import opened Sequences

  type TaskId = nat

  /** `w` is the time the item value `v` means in epoch `e`. */
  ghost predicate InEpoch(w: nat, v: nat, e: nat, M: nat) {
    v < M && w == M * e + v
  }

  ghost predicate AllInEpoch(s: seq<TaskId>, value: map<TaskId, nat>, wake: map<TaskId, nat>, e: nat, M: nat) {
    forall t :: t in s ==> t in value && t in wake && InEpoch(wake[t], value[t], e, M)
  }

  /** `cur` belongs to epoch `e` and `ovf` to the one after it. */
  ghost predicate Epochs(cur: seq<TaskId>, ovf: seq<TaskId>, value: map<TaskId, nat>, wake: map<TaskId, nat>, e: nat, M: nat) {
    AllInEpoch(cur, value, wake, e, M) && AllInEpoch(ovf, value, wake, e + 1, M)
  }

  lemma NextEpoch(e: nat, M: nat)
    ensures M * (e + 1) == M * e + M
  {
  }

  // ------------------------------------------------------------------ insertion

  /** Within one epoch, ordering by stored value is ordering by time. */
  lemma SameOrder(s: seq<TaskId>, value: map<TaskId, nat>, wake: map<TaskId, nat>, e: nat, M: nat, v: nat)
    requires AllInEpoch(s, value, wake, e, M) && Sorted(s, wake)
    ensures InsertPos(s, value, v) == InsertPos(s, wake, M * e + v)
  {
    var p, b := InsertPos(s, value, v), M * e;
    assert forall i :: 0 <= i < |s| ==> s[i] in s && wake[s[i]] == b + value[s[i]];
    InsertPosIs(s, wake, b + v, p);
  }

  lemma SameInsert(s: seq<TaskId>, value: map<TaskId, nat>, wake: map<TaskId, nat>, e: nat, M: nat, t: TaskId)
    requires AllInEpoch(s, value, wake, e, M) && Sorted(s, wake) && t in value && t in wake && InEpoch(wake[t], value[t], e, M)
    ensures SortedInsert(s, value, t) == SortedInsert(s, wake, t)
    ensures AllInEpoch(SortedInsert(s, value, t), value, wake, e, M)
  {
    hide InsertPos, InsertAt, IsInsertPos, Sorted, NoDup;
    SameOrder(s, value, wake, e, M, value[t]);
  }

  /** Every time of epoch `e` is before every time of the next one. */
  lemma EpochsApart(cur: seq<TaskId>, ovf: seq<TaskId>, value: map<TaskId, nat>, wake: map<TaskId, nat>, e: nat, M: nat, w: nat, v: nat)
    requires Epochs(cur, ovf, value, wake, e, M)
    ensures InEpoch(w, v, e, M) ==> forall x :: x in ovf ==> x in wake && w < wake[x]
    ensures InEpoch(w, v, e + 1, M) ==> forall x :: x in cur ==> x in wake && wake[x] <= w
  {
    NextEpoch(e, M);
  }

  lemma InsertCurrentPos(cur: seq<TaskId>, ovf: seq<TaskId>, wake: map<TaskId, nat>, w: nat)
    requires (forall x :: x in cur + ovf ==> x in wake) && Sorted(cur + ovf, wake)
    requires forall x :: x in ovf ==> w < wake[x]
    ensures (forall x :: x in cur ==> x in wake) && InsertPos(cur + ovf, wake, w) == InsertPos(cur, wake, w)
  {
    var s := cur + ovf;
    assert forall i :: 0 <= i < |cur| ==> s[i] == cur[i];
    assert forall x :: x in cur ==> x in s;
    var p := InsertPos(cur, wake, w);
    if p == |cur| && p < |s| { assert s[p] in ovf; }
    InsertPosIs(s, wake, w, p);
  }

  lemma InsertOverflowPos(cur: seq<TaskId>, ovf: seq<TaskId>, wake: map<TaskId, nat>, w: nat)
    requires (forall x :: x in cur + ovf ==> x in wake) && Sorted(cur + ovf, wake)
    requires forall x :: x in cur + ovf && x in cur ==> wake[x] <= w
    ensures (forall x :: x in ovf ==> x in wake) && InsertPos(cur + ovf, wake, w) == |cur| + InsertPos(ovf, wake, w)
  {
    var s := cur + ovf;
    assert forall i :: 0 <= i < |ovf| ==> s[|cur| + i] == ovf[i];
    assert forall x :: x in ovf ==> x in s;
    var p := InsertPos(ovf, wake, w);
    forall i | 0 <= i < |cur| + p ensures wake[s[i]] <= w {
      if i < |cur| { assert s[i] in cur; } else { assert s[i] == ovf[i - |cur|]; }
    }
    InsertPosIs(s, wake, w, |cur| + p);
  }

  lemma InsertAtFront(a: seq<TaskId>, b: seq<TaskId>, p: nat, x: TaskId)
    requires p <= |a|
    ensures InsertAt(a + b, p, x) == InsertAt(a, p, x) + b
  {
    assert (a + b)[..p] == a[..p] && (a + b)[p..] == a[p..] + b;
  }

  lemma InsertAtBack(a: seq<TaskId>, b: seq<TaskId>, p: nat, x: TaskId)
    requires p <= |b|
    ensures InsertAt(a + b, |a| + p, x) == a + InsertAt(b, p, x)
  {
    assert (a + b)[..|a| + p] == a + b[..p] && (a + b)[|a| + p..] == b[p..];
  }

  lemma SortedParts(cur: seq<TaskId>, ovf: seq<TaskId>, wake: map<TaskId, nat>)
    requires (forall x :: x in cur + ovf ==> x in wake) && Sorted(cur + ovf, wake)
    ensures (forall x :: x in cur ==> x in wake) && Sorted(cur, wake)
    ensures (forall x :: x in ovf ==> x in wake) && Sorted(ovf, wake)
  {
    var s := cur + ovf;
    assert forall x :: x in cur || x in ovf ==> x in s;
    assert forall i :: 0 <= i < |cur| ==> s[i] == cur[i];
    assert forall i :: 0 <= i < |ovf| ==> s[|cur| + i] == ovf[i];
  }

  lemma InsertPosWithin(s: seq<TaskId>, key: map<TaskId, nat>, v: nat)
    requires forall x :: x in s ==> x in key
    ensures InsertPos(s, key, v) <= |s|
  {
  }

  /** A time in the current epoch goes into the current list. */
  lemma InsertCurrent(cur: seq<TaskId>, ovf: seq<TaskId>, value: map<TaskId, nat>, wake: map<TaskId, nat>, e: nat, M: nat, t: TaskId)
    requires Epochs(cur, ovf, value, wake, e, M) && t in value && t in wake && InEpoch(wake[t], value[t], e, M)
    requires (forall x :: x in cur + ovf ==> x in wake) && Sorted(cur + ovf, wake)
    ensures SortedInsert(cur + ovf, wake, t) == SortedInsert(cur, value, t) + ovf
    ensures Epochs(SortedInsert(cur, value, t), ovf, value, wake, e, M)
  {
    hide InsertPos, InsertAt, IsInsertPos, Sorted, NoDup, AllInEpoch, InEpoch;
    SortedParts(cur, ovf, wake);
    SameInsert(cur, value, wake, e, M, t);
    EpochsApart(cur, ovf, value, wake, e, M, wake[t], value[t]);
    InsertCurrentPos(cur, ovf, wake, wake[t]);
    InsertPosWithin(cur, wake, wake[t]);
    InsertAtFront(cur, ovf, InsertPos(cur, wake, wake[t]), t);
  }

  /** A time in the next epoch goes into the overflow list. */
  lemma InsertOverflow(cur: seq<TaskId>, ovf: seq<TaskId>, value: map<TaskId, nat>, wake: map<TaskId, nat>, e: nat, M: nat, t: TaskId)
    requires Epochs(cur, ovf, value, wake, e, M) && t in value && t in wake && InEpoch(wake[t], value[t], e + 1, M)
    requires (forall x :: x in cur + ovf ==> x in wake) && Sorted(cur + ovf, wake)
    ensures SortedInsert(cur + ovf, wake, t) == cur + SortedInsert(ovf, value, t)
    ensures Epochs(cur, SortedInsert(ovf, value, t), value, wake, e, M)
  {
    hide InsertPos, InsertAt, IsInsertPos, Sorted, NoDup, AllInEpoch, InEpoch;
    SortedParts(cur, ovf, wake);
    SameInsert(ovf, value, wake, e + 1, M, t);
    EpochsApart(cur, ovf, value, wake, e, M, wake[t], value[t]);
    InsertOverflowPos(cur, ovf, wake, wake[t]);
    InsertPosWithin(ovf, wake, wake[t]);
    InsertAtBack(cur, ovf, InsertPos(ovf, wake, wake[t]), t);
  }

  // ------------------------------------------------------------------ removal

  lemma InOne(a: seq<TaskId>, b: seq<TaskId>, t: TaskId)
    requires NoDup(a + b)
    ensures t in a ==> t !in b
  {
    forall i, j | 0 <= i < |a| && 0 <= j < |b| ensures a[i] != b[j] {
      assert (a + b)[i] == a[i] && (a + b)[|a| + j] == b[j];
    }
  }

  /** Taking an item out of the one list that holds it takes it out of the whole. */
  lemma WithoutEither(cur: seq<TaskId>, ovf: seq<TaskId>, t: TaskId)
    requires NoDup(cur + ovf)
    ensures Without(cur + ovf, t) == Without(cur, t) + Without(ovf, t)
    ensures t in cur ==> Without(ovf, t) == ovf
    ensures t in ovf ==> Without(cur, t) == cur
  {
    InOne(cur, ovf, t);
    if t in cur {
      var i := IndexOf(cur, t);
      SplitAt(cur, i);
      Assoc(cur[..i] + [t], cur[i + 1..], ovf);
      WithoutSplit(cur[..i], t, cur[i + 1..] + ovf);
      WithoutSplit(cur[..i], t, cur[i + 1..]);
      Assoc(cur[..i], cur[i + 1..], ovf);
    } else if t in ovf {
      var i := IndexOf(ovf, t);
      SplitAt(ovf, i);
      Assoc(cur, ovf[..i] + [t], ovf[i + 1..]);
      Assoc(cur, ovf[..i], [t]);
      WithoutSplit(cur + ovf[..i], t, ovf[i + 1..]);
      WithoutSplit(ovf[..i], t, ovf[i + 1..]);
      Assoc(cur, ovf[..i], ovf[i + 1..]);
    }
  }

  lemma WithoutEpochs(cur: seq<TaskId>, ovf: seq<TaskId>, value: map<TaskId, nat>, wake: map<TaskId, nat>, e: nat, M: nat, t: TaskId)
    requires Epochs(cur, ovf, value, wake, e, M)
    ensures Epochs(Without(cur, t), Without(ovf, t), value, wake, e, M)
  {
  }

  /** A new wake time for a task in neither list changes nothing for the others. */
  lemma SetTimeEpochs(cur: seq<TaskId>, ovf: seq<TaskId>, value: map<TaskId, nat>, wake: map<TaskId, nat>, e: nat, M: nat,
                      t: TaskId, v: nat, w: nat)
    requires Epochs(cur, ovf, value, wake, e, M) && t !in cur && t !in ovf
    ensures Epochs(cur, ovf, value[t := v], wake[t := w], e, M)
  {
  }

  // ------------------------------------------------------------------ the wrap

  /** At every wrap the current list is empty: everything in it was due before the epoch ended. */
  lemma CurrentEmptyAtWrap(cur: seq<TaskId>, ovf: seq<TaskId>, value: map<TaskId, nat>, wake: map<TaskId, nat>, e: nat, M: nat)
    requires Epochs(cur, ovf, value, wake, e, M)
    requires forall t :: t in cur + ovf ==> t in wake && wake[t] >= M * (e + 1)
    ensures cur == []
  {
    NextEpoch(e, M);
    assert forall t :: t in cur ==> t in cur + ovf;
    if cur != [] { FirstMember(cur); }
  }

  lemma FirstMember(s: seq<TaskId>)
    requires s != []
    ensures s[0] in s
  {
  }

  /** The swap: the overflow list becomes the current one, and the empty list takes its place. */
  lemma SwapEpochs(ovf: seq<TaskId>, value: map<TaskId, nat>, wake: map<TaskId, nat>, e: nat, M: nat)
    requires Epochs([], ovf, value, wake, e, M)
    ensures Epochs(ovf, [], value, wake, e + 1, M)
    ensures ovf + [] == [] + ovf
  {
  }

  // ------------------------------------------------------------------ the cached next unblock time

  /** No item of the current list is due before `next`. */
  ghost predicate NothingBefore(cur: seq<TaskId>, value: map<TaskId, nat>, next: nat) {
    forall t :: t in cur ==> t in value && next <= value[t]
  }

  lemma WithoutBefore(cur: seq<TaskId>, value: map<TaskId, nat>, next: nat, t: TaskId)
    requires NothingBefore(cur, value, next)
    ensures NothingBefore(Without(cur, t), value, next)
  {
  }

  /** The head of the current list, being the earliest, bounds them all. */
  lemma HeadIsNext(cur: seq<TaskId>, ovf: seq<TaskId>, value: map<TaskId, nat>, wake: map<TaskId, nat>, e: nat, M: nat)
    requires Epochs(cur, ovf, value, wake, e, M) && cur != []
    requires (forall t :: t in cur ==> t in wake) && Sorted(cur, wake)
    ensures cur[0] in value && value[cur[0]] < M && NothingBefore(cur, value, value[cur[0]])
  {
    forall t | t in cur ensures value[cur[0]] <= value[t] {
      var i :| 0 <= i < |cur| && cur[i] == t;
      assert i > 0 ==> wake[cur[0]] <= wake[cur[i]];
    }
  }

  /** A tick below the cached time has nothing to unblock, so the list need not be looked at. */
  lemma SkipIsSafe(cur: seq<TaskId>, ovf: seq<TaskId>, value: map<TaskId, nat>, wake: map<TaskId, nat>,
      e: nat, M: nat, tick: nat, next: nat)
    requires Epochs(cur, ovf, value, wake, e, M) && NothingBefore(cur, value, next) && tick < next && tick < M
    ensures cur + ovf != [] ==> (cur + ovf)[0] in wake && wake[(cur + ovf)[0]] > M * e + tick
  {
    NextEpoch(e, M);
    if cur != [] { assert (cur + ovf)[0] == cur[0]; }
  }

  /** The head of the current list is due exactly when its value has been reached; the overflow list never is. */
  lemma HeadDue(cur: seq<TaskId>, ovf: seq<TaskId>, value: map<TaskId, nat>, wake: map<TaskId, nat>, e: nat, M: nat, tick: nat)
    requires Epochs(cur, ovf, value, wake, e, M) && tick < M
    ensures cur != [] ==> (cur + ovf)[0] == cur[0] && cur[0] in wake && cur[0] in value
    ensures cur != [] ==> (wake[cur[0]] <= M * e + tick <==> value[cur[0]] <= tick)
    ensures cur == [] && ovf != [] ==> (cur + ovf)[0] == ovf[0] && ovf[0] in wake && wake[ovf[0]] > M * e + tick
  {
    NextEpoch(e, M);
  }

  // ------------------------------------------------------------------ filing a wake time

  lemma SetTimeSorted(s: seq<TaskId>, wake: map<TaskId, nat>, t: TaskId, w: nat)
    requires (forall u :: u in s ==> u in wake) && Sorted(s, wake) && t !in s
    ensures (forall u :: u in s ==> u in wake[t := w]) && Sorted(s, wake[t := w])
  {
  }

  lemma SetTimeBefore(cur: seq<TaskId>, value: map<TaskId, nat>, next: nat, t: TaskId, v: nat)
    requires NothingBefore(cur, value, next) && t !in cur
    ensures NothingBefore(cur, value[t := v], next)
  {
  }

  lemma InsertBefore(cur: seq<TaskId>, value: map<TaskId, nat>, next: nat, t: TaskId)
    requires NothingBefore(cur, value, next) && t in value
    ensures NothingBefore(SortedInsert(cur, value, t), value, if value[t] < next then value[t] else next)
  {
  }

  lemma ValuesDefined(cur: seq<TaskId>, ovf: seq<TaskId>, value: map<TaskId, nat>, wake: map<TaskId, nat>, e: nat, M: nat)
    requires Epochs(cur, ovf, value, wake, e, M)
    ensures (forall u :: u in cur ==> u in value) && forall u :: u in ovf ==> u in value
  {
  }

  /**
   A wake time `d` ticks ahead, wrapped at M, is below the tick count exactly when it belongs to the next
   epoch; filed in the list that test chooses, it takes its place in absolute order.
   */
  lemma FiledTime(cur: seq<TaskId>, ovf: seq<TaskId>, value: map<TaskId, nat>, wake: map<TaskId, nat>, e: nat, M: nat,
                  tick: nat, next: nat, t: TaskId, d: nat)
    requires Epochs(cur, ovf, value, wake, e, M) && NothingBefore(cur, value, next) && tick < M && d < M
    requires (forall u :: u in cur + ovf ==> u in wake) && Sorted(cur + ovf, wake) && t !in cur && t !in ovf
    ensures var x := WrapAdd(tick, d, M);
      var v, w := value[t := x], wake[t := M * e + tick + d];
      && (forall u :: u in cur ==> u in v) && (forall u :: u in ovf ==> u in v) && (forall u :: u in cur + ovf ==> u in w)
      && (x < tick ==>
           && Epochs(cur, SortedInsert(ovf, v, t), v, w, e, M) && NothingBefore(cur, v, next)
           && SortedInsert(cur + ovf, w, t) == cur + SortedInsert(ovf, v, t))
      && (x >= tick ==>
           && Epochs(SortedInsert(cur, v, t), ovf, v, w, e, M)
           && NothingBefore(SortedInsert(cur, v, t), v, if x < next then x else next)
           && SortedInsert(cur + ovf, w, t) == SortedInsert(cur, v, t) + ovf)
  {
    hide Epochs, NothingBefore, SortedInsert, Sorted;
    var x := WrapAdd(tick, d, M);
    var v, w := value[t := x], wake[t := M * e + tick + d];
    NextEpoch(e, M);
    SetTimeEpochs(cur, ovf, value, wake, e, M, t, x, M * e + tick + d);
    SetTimeBefore(cur, value, next, t, x);
    NotInWhole(cur, ovf, t);
    SetTimeSorted(cur + ovf, wake, t, M * e + tick + d);
    ValuesDefined(cur, ovf, v, w, e, M);
    if x < tick {
      InsertOverflow(cur, ovf, v, w, e, M, t);
    } else {
      InsertCurrent(cur, ovf, v, w, e, M, t);
      InsertBefore(cur, v, next, t);
    }
  }

  ghost predicate AllIn(s: seq<TaskId>, m: map<TaskId, nat>) {
    forall u :: u in s ==> u in m
  }

  ghost predicate InOrder(s: seq<TaskId>, wake: map<TaskId, nat>) {
    AllIn(s, wake) && Sorted(s, wake)
  }

  /** `r` is `s` with `t` in the place its time gives it. */
  ghost predicate Inserted(s: seq<TaskId>, r: seq<TaskId>, wake: map<TaskId, nat>, t: TaskId) {
    AllIn(s, wake) && t in wake && r == SortedInsert(s, wake, t)
  }

  lemma FiledInOverflow(cur: seq<TaskId>, ovf: seq<TaskId>, value: map<TaskId, nat>, wake: map<TaskId, nat>, e: nat, M: nat,
                        tick: nat, next: nat, t: TaskId, d: nat, v: map<TaskId, nat>, w: map<TaskId, nat>)
    requires Epochs(cur, ovf, value, wake, e, M) && NothingBefore(cur, value, next) && tick < M && d < M
    requires InOrder(cur + ovf, wake) && t !in cur && t !in ovf
    requires v == value[t := WrapAdd(tick, d, M)] && w == wake[t := M * e + tick + d] && WrapAdd(tick, d, M) < tick
    ensures AllIn(ovf, v) && AllIn(cur + ovf, w)
    ensures Epochs(cur, SortedInsert(ovf, v, t), v, w, e, M) && NothingBefore(cur, v, next)
    ensures Inserted(cur + ovf, cur + SortedInsert(ovf, v, t), w, t)
  {
    hide Epochs, NothingBefore, SortedInsert, Sorted, WrapAdd;
    FiledTime(cur, ovf, value, wake, e, M, tick, next, t, d);
  }

  lemma FiledInCurrent(cur: seq<TaskId>, ovf: seq<TaskId>, value: map<TaskId, nat>, wake: map<TaskId, nat>, e: nat, M: nat,
                       tick: nat, next: nat, t: TaskId, d: nat, v: map<TaskId, nat>, w: map<TaskId, nat>)
    requires Epochs(cur, ovf, value, wake, e, M) && NothingBefore(cur, value, next) && tick < M && d < M
    requires InOrder(cur + ovf, wake) && t !in cur && t !in ovf
    requires v == value[t := WrapAdd(tick, d, M)] && w == wake[t := M * e + tick + d] && WrapAdd(tick, d, M) >= tick
    ensures AllIn(cur, v) && AllIn(cur + ovf, w)
    ensures Epochs(SortedInsert(cur, v, t), ovf, v, w, e, M)
    ensures NothingBefore(SortedInsert(cur, v, t), v, if v[t] < next then v[t] else next)
    ensures Inserted(cur + ovf, SortedInsert(cur, v, t) + ovf, w, t)
  {
    hide Epochs, NothingBefore, SortedInsert, Sorted, WrapAdd;
    FiledTime(cur, ovf, value, wake, e, M, tick, next, t, d);
  }

  lemma NotInWhole(cur: seq<TaskId>, ovf: seq<TaskId>, t: TaskId)
    requires t !in cur && t !in ovf
    ensures t !in cur + ovf
  {
  }
}

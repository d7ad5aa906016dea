/**
 The abstract value of a kernel list.

 A list holds each item at most once.  Sorted lists are plain sequences; a list that is also walked
 by `listGET_OWNER_OF_NEXT_ENTRY` is a `Ring`, a sequence with a moving index.  The heap structures
 in module Lists are proved to implement exactly these functions, and the kernel, timer, queue and
 event group models are built on them.
 */
module Sequences {

  ghost predicate NoDup<T(!new)>(s: seq<T>) {
    forall i, j :: 0 <= i < j < |s| ==> s[i] != s[j]
  }

  function IndexOf<T(==, !new)>(s: seq<T>, x: T): (i: nat)
    requires x in s
    ensures i < |s| && s[i] == x && x !in s[..i]
  {
    if s[0] == x then 0 else 1 + IndexOf(s[1..], x)
  }

  /** `s` with its first occurrence of `x` taken out. */
  function Without<T(==, !new)>(s: seq<T>, x: T): (r: seq<T>)
    ensures x !in s ==> r == s
    ensures x in s ==> |r| + 1 == |s|
    ensures forall y :: y != x ==> (y in r <==> y in s)
    ensures NoDup(s) ==> NoDup(r) && x !in r
  {
    if x !in s then s else
      var i := IndexOf(s, x);
      assert s == s[..i] + [x] + s[i + 1..];
      s[..i] + s[i + 1..]
  }

  /** The place of a new item in value order: after every leading item whose value is not larger. */
  ghost predicate IsInsertPos<T(!new)>(s: seq<T>, key: map<T, nat>, v: nat, p: nat)
    requires forall x :: x in s ==> x in key
  {
    p <= |s| && (forall i :: 0 <= i < p ==> key[s[i]] <= v) && (p < |s| ==> v < key[s[p]])
  }

  function InsertPos<T(!new)>(s: seq<T>, key: map<T, nat>, v: nat): (p: nat)
    requires forall x :: x in s ==> x in key
    ensures IsInsertPos(s, key, v, p)
  {
    if s == [] || v < key[s[0]] then 0 else
      assert forall x :: x in s[1..] ==> x in s;
      1 + InsertPos(s[1..], key, v)
  }

  /** There is only one such place. */
  lemma InsertPosIs<T(!new)>(s: seq<T>, key: map<T, nat>, v: nat, p: nat)
    requires (forall x :: x in s ==> x in key) && IsInsertPos(s, key, v, p)
    ensures InsertPos(s, key, v) == p
  {
    var q := InsertPos(s, key, v);
    assert q < |s| ==> v < key[s[q]];
    assert p < |s| ==> v < key[s[p]];
  }

  function InsertAt<T(!new)>(s: seq<T>, p: nat, x: T): (r: seq<T>)
    requires p <= |s|
    ensures |r| == |s| + 1 && r[p] == x && r[..p] == s[..p] && r[p + 1..] == s[p..]
    ensures forall y :: y in r <==> y == x || y in s
    ensures NoDup(s) && x !in s ==> NoDup(r)
  {
    assert s == s[..p] + s[p..];
    s[..p] + [x] + s[p..]
  }

  function SortedInsert<T(!new)>(s: seq<T>, key: map<T, nat>, x: T): (r: seq<T>)
    requires x in key && forall y :: y in s ==> y in key
    ensures forall y :: y in r <==> y == x || y in s
    ensures |r| == |s| + 1
    ensures NoDup(s) && x !in s ==> NoDup(r)
  {
    InsertAt(s, InsertPos(s, key, key[x]), x)
  }

  ghost predicate Sorted<T(!new)>(s: seq<T>, key: map<T, nat>)
    requires forall x :: x in s ==> x in key
  {
    forall i, j :: 0 <= i < j < |s| ==> key[s[i]] <= key[s[j]]
  }

  lemma SortedInsertSorts<T(!new)>(s: seq<T>, key: map<T, nat>, x: T)
    requires x in key && (forall y :: y in s ==> y in key) && Sorted(s, key)
    ensures Sorted(SortedInsert(s, key, x), key)
  {
    var p := InsertPos(s, key, key[x]);
    var r := InsertAt(s, p, x);
    forall i, j | 0 <= i < j < |r| ensures key[r[i]] <= key[r[j]] {
      assert i < p ==> r[i] == s[i];
      assert j < p ==> r[j] == s[j];
      assert i > p ==> r[i] == r[p + 1..][i - p - 1] == s[i - 1];
      assert j > p ==> r[j] == r[p + 1..][j - p - 1] == s[j - 1];
    }
  }

  lemma WithoutSorted<T(!new)>(s: seq<T>, key: map<T, nat>, x: T)
    requires (forall y :: y in s ==> y in key) && Sorted(s, key)
    ensures Sorted(Without(s, x), key)
  {
  }

  /** The list holds the items whose container is `home`, each once. */
  ghost predicate Holds<T(!new), H>(s: seq<T>, at: map<T, H>, home: H) {
    && NoDup(s)
    && (forall t :: t in s ==> t in at && at[t] == home)
    && (forall t :: t in at && at[t] == home ==> t in s)
  }

  // ------------------------------------------------------------------ rings

  /** `index` 0 stands for the end marker, `k` for the item at position `k - 1`. */
  datatype Ring<T> = Ring(items: seq<T>, index: nat)

  ghost predicate RingOk<T(!new)>(r: Ring<T>) {
    r.index <= |r.items| && NoDup(r.items)
  }

  /** `vListInsertEnd`: the new item goes immediately before the index. */
  function RingInsertEnd<T(!new)>(r: Ring<T>, x: T): (r': Ring<T>)
    requires r.index <= |r.items|
    ensures r'.index <= |r'.items|
    ensures forall y :: y in r'.items <==> y == x || y in r.items
    ensures NoDup(r.items) && x !in r.items ==> NoDup(r'.items)
  {
    if r.index == 0
    then Ring(InsertAt(r.items, |r.items|, x), 0)
    else Ring(InsertAt(r.items, r.index - 1, x), r.index + 1)
  }

  /** `vListInsert`: an index beyond the new item moves along with its own item. */
  function RingInsertSorted<T(!new)>(r: Ring<T>, key: map<T, nat>, x: T): (r': Ring<T>)
    requires r.index <= |r.items| && x in key && forall y :: y in r.items ==> y in key
    ensures r'.index <= |r'.items| && r'.items == SortedInsert(r.items, key, x)
  {
    Ring(SortedInsert(r.items, key, x), if r.index > InsertPos(r.items, key, key[x]) then r.index + 1 else r.index)
  }

  /** `uxListRemove`: an index on the removed item steps back to its predecessor. */
  function RingRemove<T(==, !new)>(r: Ring<T>, x: T): (r': Ring<T>)
    requires r.index <= |r.items|
    ensures r'.index <= |r'.items|
    ensures r'.items == Without(r.items, x)
    ensures x !in r.items ==> r' == r
  {
    if x !in r.items then r else
      Ring(Without(r.items, x), if IndexOf(r.items, x) < r.index then r.index - 1 else r.index)
  }

  /** `listGET_OWNER_OF_NEXT_ENTRY`: step the index, skipping the end marker. */
  function RingNext<T(!new)>(r: Ring<T>): (r': Ring<T>)
    requires r.items != [] && r.index <= |r.items|
    ensures r'.items == r.items && 1 <= r'.index <= |r.items|
  {
    Ring(r.items, if r.index == |r.items| then 1 else r.index + 1)
  }

  function RingCurrent<T(!new)>(r: Ring<T>): T
    requires 1 <= r.index <= |r.items|
  {
    r.items[r.index - 1]
  }

  /** The order in which the next `|items|` walks would return the items. */
  function Round<T(!new)>(r: Ring<T>): (s: seq<T>)
    requires r.index <= |r.items|
    ensures |s| == |r.items|
  {
    r.items[r.index..] + r.items[..r.index]
  }

  lemma NextServesRound<T(!new)>(r: Ring<T>)
    requires r.items != [] && r.index <= |r.items|
    ensures RingCurrent(RingNext(r)) == Round(r)[0]
    ensures Round(RingNext(r)) == Round(r)[1..] + [Round(r)[0]]
  {
  }

  /** The items returned by `n` consecutive walks. */
  function Served<T(!new)>(r: Ring<T>, n: nat): (s: seq<T>)
    requires n > 0 ==> r.items != []
    requires r.index <= |r.items|
    ensures |s| == n
    decreases n
  {
    if n == 0 then [] else [RingCurrent(RingNext(r))] + Served(RingNext(r), n - 1)
  }

  /** `n` consecutive walks return the first `n` items of the round, as long as `n` fits in it. */
  lemma {:induction false} ServedIsRound<T(!new)>(r: Ring<T>, n: nat)
    requires r.items != [] && r.index <= |r.items| && n <= |r.items|
    ensures Served(r, n) == Round(r)[..n]
    decreases n
  {
    if n > 0 {
      NextServesRound(r);
      ServedIsRound(RingNext(r), n - 1);
      assert Round(RingNext(r))[..n - 1] == Round(r)[1..n];
    }
  }

  /** Any `|items|` consecutive walks of an unchanged list return each of its items exactly once. */
  lemma FullRoundServesEachOnce<T(!new)>(r: Ring<T>)
    requires r.items != [] && RingOk(r)
    ensures NoDup(Served(r, |r.items|))
    ensures forall x :: x in Served(r, |r.items|) <==> x in r.items
  {
    ServedIsRound(r, |r.items|);
    var s := Round(r);
    assert Served(r, |r.items|) == s;
    forall x ensures x in s <==> x in r.items {
      assert r.items == r.items[..r.index] + r.items[r.index..];
    }
  }

  /**
   Removal keeps every remaining item's turn: the round loses the removed item and nothing else
   moves, wherever the index stood.
   */
  lemma RemovalKeepsTurns<T(!new)>(r: Ring<T>, x: T)
    requires RingOk(r)
    ensures RingOk(RingRemove(r, x))
    ensures Round(RingRemove(r, x)) == Without(Round(r), x)
  {
    if x in r.items {
      var i, k := IndexOf(r.items, x), r.index;
      var front, back := r.items[..k], r.items[k..];
      SplitAround(r.items, k);
      if i < k {
        assert x !in front[..i] && x !in back && front[i] == x;
        SplitAt(front, i);
        RemoveBeforeIndex(front[..i], x, front[i + 1..], back);
      } else {
        assert x !in front && x !in back[..i - k] && back[i - k] == x;
        SplitAt(back, i - k);
        RemoveAfterIndex(front, back[..i - k], x, back[i - k + 1..]);
      }
    } else {
      SplitAround(r.items, r.index);
    }
  }

  lemma SplitAround<T>(s: seq<T>, k: nat)
    requires k <= |s|
    ensures s == s[..k] + s[k..]
  {
  }

  lemma SplitAt<T>(s: seq<T>, k: nat)
    requires k < |s|
    ensures s == s[..k] + [s[k]] + s[k + 1..]
  {
  }

  lemma RemoveBeforeIndex<T(!new)>(p: seq<T>, x: T, q: seq<T>, back: seq<T>)
    requires x !in p && x !in back
    ensures var r := Ring(p + [x] + q + back, |p| + 1 + |q|);
      Round(RingRemove(r, x)) == Without(Round(r), x)
  {
    Assoc(p + [x], q, back);
    WithoutSplit(p, x, q + back);
    Assoc(p, q, back);
    RoundSplit(p + q, back);
    RoundSplit(p + [x] + q, back);
    Assoc(p, [x], q);
    Assoc(back, p, [x] + q);
    Assoc(back + p, [x], q);
    WithoutSplit(back + p, x, q);
    Assoc(back, p, q);
  }

  lemma RemoveAfterIndex<T(!new)>(front: seq<T>, p: seq<T>, x: T, q: seq<T>)
    requires x !in p && x !in front
    ensures var r := Ring(front + (p + [x] + q), |front|);
      Round(RingRemove(r, x)) == Without(Round(r), x)
  {
    Assoc(p, [x], q);
    Assoc(front, p, [x] + q);
    Assoc(front + p, [x], q);
    WithoutSplit(front + p, x, q);
    Assoc(front, p, q);
    RoundSplit(front, p + q);
    RoundSplit(front, p + [x] + q);
    Assoc(p + [x], q, front);
    WithoutSplit(p, x, q + front);
    Assoc(p, q, front);
  }

  lemma Assoc<T>(a: seq<T>, b: seq<T>, c: seq<T>)
    ensures (a + b) + c == a + (b + c)
  {
  }

  lemma RoundSplit<T(!new)>(a: seq<T>, b: seq<T>)
    ensures Round(Ring(a + b, |a|)) == b + a
  {
  }

  lemma WithoutSplit<T(!new)>(a: seq<T>, x: T, b: seq<T>)
    requires x !in a
    ensures Without(a + [x] + b, x) == a + b && IndexOf(a + [x] + b, x) == |a|
  {
    var s := a + [x] + b;
    assert s[|a|] == x && s[..|a|] == a;
    FirstIndex(s, x, |a|);
  }

  lemma FirstIndex<T(!new)>(s: seq<T>, x: T, j: nat)
    requires j < |s| && s[j] == x && x !in s[..j]
    ensures IndexOf(s, x) == j
  {
    if j > 0 {
      assert s[0] == s[..j][0] != x;
      assert s[1..][..j - 1] == s[..j][1..];
      FirstIndex(s[1..], x, j - 1);
    }
  }

  /**
   A task added by `vListInsertEnd` gets its turn after every other item except the one the index
   stands on, which was the last to be returned; with the index on the end marker it is simply last.
   */
  lemma InsertEndKeepsTurns<T(!new)>(r: Ring<T>, x: T)
    requires RingOk(r)
    ensures r.index == 0 ==> Round(RingInsertEnd(r, x)) == Round(r) + [x]
    ensures r.index > 0 ==>
      var n := |r.items| - 1;
      Round(RingInsertEnd(r, x)) == Round(r)[..n] + [x] + [Round(r)[n]] && Round(r)[n] == RingCurrent(r)
  {
  }
}

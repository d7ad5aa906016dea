/**
 The intrusive lists of list.c and list.h: a circular, doubly linked ring through an end marker, with a
 moving index.  The heap structure is proved to implement the sequences and rings of module Sequences.
 */
module Lists {
  import opened Sequences

  class ListItem {
    var xItemValue: nat
    var pxNext: ListItem?
    var pxPrevious: ListItem?
    var pvOwner: nat
    var pvContainer: List?

    /** An item as `vListInitialiseItem` leaves it, with the value and owner its user sets. */
    constructor (value: nat, owner: nat)
      ensures xItemValue == value && pvOwner == owner && pvContainer == null
    {
      xItemValue, pvOwner, pvContainer := value, owner, null;
      pxNext, pxPrevious := null, null;
    }
  }

  /** The ring: position 0 and the position after the last item are the end marker, position `k` item `k - 1`. */
  function NodeAt(end: ListItem, items: seq<ListItem>, k: nat): ListItem
    requires k <= |items| + 1
  {
    if k == 0 || k == |items| + 1 then end else items[k - 1]
  }

  /** The link from position `k` to the next, both ways. */
  ghost predicate Link(end: ListItem, items: seq<ListItem>, k: nat)
    requires k <= |items|
    reads end`pxNext, end`pxPrevious, items`pxNext, items`pxPrevious
  {
    NodeAt(end, items, k).pxNext == NodeAt(end, items, k + 1) && NodeAt(end, items, k + 1).pxPrevious == NodeAt(end, items, k)
  }

  ghost predicate Linked(end: ListItem, items: seq<ListItem>)
    reads end`pxNext, end`pxPrevious, items`pxNext, items`pxPrevious
  {
    forall k :: 0 <= k <= |items| ==> Link(end, items, k)
  }

  ghost predicate Apart(end: ListItem, items: seq<ListItem>) {
    && end !in items
    && forall i, j :: 0 <= i < j < |items| ==> items[i] != items[j]
  }

  lemma NodesApart(end: ListItem, items: seq<ListItem>, j: nat, k: nat)
    requires Apart(end, items) && j < k <= |items| + 1 && (j > 0 || k <= |items|)
    ensures NodeAt(end, items, j) != NodeAt(end, items, k)
  {
  }

  lemma NodeIn(end: ListItem, items: seq<ListItem>, k: nat)
    requires k <= |items| + 1
    ensures NodeAt(end, items, k) == end || NodeAt(end, items, k) in items
  {
  }

  function Spliced(items: seq<ListItem>, p: nat, x: ListItem): (r: seq<ListItem>)
    requires p <= |items|
    ensures |r| == |items| + 1
  {
    items[..p] + [x] + items[p..]
  }

  lemma SplicedNodes(end: ListItem, items: seq<ListItem>, p: nat, x: ListItem, k: nat)
    requires p <= |items| && k <= |items| + 2
    ensures NodeAt(end, Spliced(items, p, x), k) ==
      if k <= p then NodeAt(end, items, k) else if k == p + 1 then x else NodeAt(end, items, k - 1)
  {
  }

  function Unspliced(items: seq<ListItem>, p: nat): (r: seq<ListItem>)
    requires p < |items|
    ensures |r| == |items| - 1
  {
    items[..p] + items[p + 1..]
  }

  lemma UnsplicedNodes(end: ListItem, items: seq<ListItem>, p: nat, k: nat)
    requires p < |items| && k <= |items|
    ensures NodeAt(end, Unspliced(items, p), k) == if k <= p then NodeAt(end, items, k) else NodeAt(end, items, k + 1)
  {
  }

  /** The four pointer writes of an insertion: `x` goes in after `before`, at ring position `p`. */
  method Splice(end: ListItem, ghost items: seq<ListItem>, before: ListItem, x: ListItem, ghost p: nat)
    requires Apart(end, items) && Linked(end, items) && p <= |items| && before == NodeAt(end, items, p) && x !in items && x != end
    modifies end`pxNext, end`pxPrevious, items`pxNext, items`pxPrevious, x`pxNext, x`pxPrevious
    ensures Linked(end, Spliced(items, p, x))
  {
    assert Link(end, items, p);
    ghost var after := NodeAt(end, items, p + 1);
    NodeIn(end, items, p);
    NodeIn(end, items, p + 1);
    label start:
    x.pxNext := before.pxNext;
    x.pxNext.pxPrevious := x;
    x.pxPrevious := before;
    before.pxNext := x;
    forall k | 0 <= k <= |items| + 1 ensures Link(end, Spliced(items, p, x), k) {
      SplicedNodes(end, items, p, x, k);
      SplicedNodes(end, items, p, x, k + 1);
      if k < p {
        assert old@start(Link(end, items, k));
        NodesApart(end, items, k, p);
        NodesApart(end, items, k + 1, p + 1);
        NodeIn(end, items, k);
        NodeIn(end, items, k + 1);
      } else if k > p + 1 {
        assert old@start(Link(end, items, k - 1));
        NodesApart(end, items, p, k - 1);
        NodesApart(end, items, p + 1, k);
        NodeIn(end, items, k);
        NodeIn(end, items, k - 1);
      }
    }
  }

  /** The two pointer writes of a removal, of the item at position `p` of the sequence. */
  method Unsplice(end: ListItem, ghost items: seq<ListItem>, x: ListItem, ghost p: nat)
    requires Apart(end, items) && Linked(end, items) && p < |items| && x == items[p]
    requires x.pxNext != null && x.pxPrevious != null
    modifies end`pxNext, end`pxPrevious, items`pxNext, items`pxPrevious
    ensures Linked(end, Unspliced(items, p))
    ensures x.pxPrevious == old(x.pxPrevious) == NodeAt(end, items, p)
  {
    assert Link(end, items, p) && Link(end, items, p + 1);
    NodesApart(end, items, p, p + 1);
    NodesApart(end, items, p + 1, p + 2);
    NodeIn(end, items, p);
    NodeIn(end, items, p + 2);
    label start:
    x.pxNext.pxPrevious := x.pxPrevious;
    x.pxPrevious.pxNext := x.pxNext;
    forall k | 0 <= k <= |items| - 1 ensures Link(end, Unspliced(items, p), k) {
      UnsplicedNodes(end, items, p, k);
      UnsplicedNodes(end, items, p, k + 1);
      if k < p {
        assert old@start(Link(end, items, k));
        NodesApart(end, items, k, p);
        NodesApart(end, items, k + 1, p + 2);
        NodeIn(end, items, k);
        NodeIn(end, items, k + 1);
      } else if k > p {
        assert old@start(Link(end, items, k + 1));
        NodesApart(end, items, p, k + 1);
        NodesApart(end, items, p + 2, k + 2);
        NodeIn(end, items, k + 1);
        NodeIn(end, items, k + 2);
      }
    }
  }

  ghost function OwnersOf(items: seq<ListItem>): (s: seq<nat>)
    reads items`pvOwner
    ensures |s| == |items| && forall i :: 0 <= i < |s| ==> s[i] == items[i].pvOwner
  {
    if items == [] then [] else OwnersOf(items[..|items| - 1]) + [items[|items| - 1].pvOwner]
  }

  class List {
    /** portMAX_DELAY. */
    const max: nat
    const xListEnd: ListItem
    var uxNumberOfItems: nat
    var pxIndex: ListItem

    /** The items in order, and the position of `pxIndex` in the ring. */
    ghost var items: seq<ListItem>
    ghost var at: nat

    /** The items name this list as their container. */
    ghost predicate Contains(items: seq<ListItem>)
      reads items`xItemValue, items`pvContainer
    {
      forall x :: x in items ==> x.xItemValue <= max && x.pvContainer == this
    }

    ghost predicate Valid()
      reads this, xListEnd, items
    {
      && Apart(xListEnd, items) && Linked(xListEnd, items) && Contains(items)
      && uxNumberOfItems == |items| && xListEnd.xItemValue == max
      && at <= |items| && pxIndex == NodeAt(xListEnd, items, at)
    }

    /** The abstract list: the owners in order, and the index. */
    ghost function View(): Ring<nat>
      reads items, this
    {
      Ring(OwnersOf(items), at)
    }

    /** `vListInitialise`. */
    constructor (max: nat)
      ensures Valid() && fresh(xListEnd) && View() == Ring([], 0) && this.max == max && items == []
    {
      this.max := max;
      var end := new ListItem(max, 0);
      xListEnd := end;
      pxIndex := end;
      uxNumberOfItems := 0;
      items, at := [], 0;
      new;
      end.pxNext := end;
      end.pxPrevious := end;
    }

    /** The pointer writes of an insertion, and the container's. */
    method Attach(before: ListItem, x: ListItem, ghost p: nat)
      requires Valid() && p <= |items| && before == NodeAt(xListEnd, items, p)
      requires x !in items && x != xListEnd && x.xItemValue <= max
      modifies xListEnd`pxNext, xListEnd`pxPrevious, items`pxNext, items`pxPrevious, x`pxNext, x`pxPrevious, x`pvContainer
      ensures Linked(xListEnd, Spliced(items, p, x)) && Contains(Spliced(items, p, x))
      ensures OwnersOf(Spliced(items, p, x)) == InsertAt(old(OwnersOf(items)), p, x.pvOwner)
    {
      hide OwnersOf, InsertAt, Linked, NodeAt;
      OwnersSpliced(items, p, x);
      InRange(xListEnd, items, p, x);
      Splice(xListEnd, items, before, x, p);
      x.pvContainer := this;
    }

    /** An insertion after `before`, at ring position `p`; an index further on moves along with its item. */
    method InsertAfter(before: ListItem, x: ListItem, ghost p: nat)
      requires Valid() && p <= |items| && before == NodeAt(xListEnd, items, p)
      requires x !in items && x != xListEnd && x.pvContainer == null && x.xItemValue <= max
      modifies this`items, this`at, this`uxNumberOfItems, xListEnd`pxNext, xListEnd`pxPrevious, items`pxNext, items`pxPrevious,
        x`pxNext, x`pxPrevious, x`pvContainer
      ensures Valid() && items == Spliced(old(items), p, x)
      ensures at == if old(at) > p then old(at) + 1 else old(at)
      ensures OwnersOf(items) == InsertAt(old(OwnersOf(items)), p, x.pvOwner)
    {
      hide OwnersOf, InsertAt, Linked, NodeAt, Apart, Spliced, Contains;
      Attach(before, x, p);
      InRange(xListEnd, items, p, x);
      SplicedNodes(xListEnd, items, p, x, at);
      SplicedNodes(xListEnd, items, p, x, at + 1);
      uxNumberOfItems := uxNumberOfItems + 1;
      items := Spliced(items, p, x);
      at := if at > p then at + 1 else at;
    }

    /** `vListInsertEnd`: the new item goes immediately before the one the index names. */
    method InsertEnd(x: ListItem)
      requires Valid() && x !in items && x != xListEnd && x.pvContainer == null && x.xItemValue <= max
      modifies this`items, this`at, this`uxNumberOfItems, xListEnd`pxNext, xListEnd`pxPrevious, items`pxNext, items`pxPrevious,
        x`pxNext, x`pxPrevious, x`pvContainer
      ensures Valid() && x in items && View() == RingInsertEnd(old(View()), x.pvOwner)
    {
      hide OwnersOf, InsertAt;
      ghost var p := if at == 0 then |items| else at - 1;
      assert Link(xListEnd, items, p);
      InsertAfter(pxIndex.pxPrevious, x, p);
    }

    /** `vListInsert`: after every leading item whose value is not larger; the end marker stops the search. */
    method Insert(x: ListItem, ghost key: map<nat, nat>)
      requires Valid() && x !in items && x != xListEnd && x.pvContainer == null && x.xItemValue <= max
      requires (forall y :: y in items ==> y.pvOwner in key && key[y.pvOwner] == y.xItemValue)
      requires x.pvOwner in key && key[x.pvOwner] == x.xItemValue
      modifies this`items, this`at, this`uxNumberOfItems, xListEnd`pxNext, xListEnd`pxPrevious, items`pxNext, items`pxPrevious,
        x`pxNext, x`pxPrevious, x`pvContainer
      ensures Valid() && x in items
      ensures (forall o :: o in old(OwnersOf(items)) ==> o in key) && View() == RingInsertSorted(old(View()), key, x.pvOwner)
    {
      ghost var p := |items|;
      var pxIterator: ListItem;
      assert Link(xListEnd, items, |items|);
      if x.xItemValue == max {
        pxIterator := xListEnd.pxPrevious;
      } else {
        pxIterator := xListEnd;
        p := 0;
        assert Link(xListEnd, items, 0);
        while pxIterator.pxNext.xItemValue <= x.xItemValue
          invariant p <= |items| && pxIterator == NodeAt(xListEnd, items, p) && pxIterator.pxNext == NodeAt(xListEnd, items, p + 1)
          invariant forall i :: 0 <= i < p ==> items[i].xItemValue <= x.xItemValue
          decreases |items| - p
        {
          assert Link(xListEnd, items, p + 1);
          pxIterator := pxIterator.pxNext;
          p := p + 1;
        }
      }
      InsertPosIs(OwnersOf(items), key, x.xItemValue, p);
      InsertAfter(pxIterator, x, p);
    }

    /** The pointer writes of a removal; an index on the item steps back with them. */
    method Detach(x: ListItem, ghost p: nat)
      requires Valid() && p < |items| && items[p] == x
      modifies this`pxIndex, xListEnd`pxNext, xListEnd`pxPrevious, items`pxNext, items`pxPrevious, x`pvContainer
      ensures Linked(xListEnd, Unspliced(items, p)) && Contains(Unspliced(items, p)) && x.pvContainer == null
      ensures pxIndex == if at == p + 1 then NodeAt(xListEnd, items, p) else NodeAt(xListEnd, items, at)
      ensures OwnersOf(Unspliced(items, p)) == old(OwnersOf(Unspliced(items, p)))
    {
      hide OwnersOf, Linked, NodeAt;
      OutOfRange(xListEnd, items, p);
      LinksAt(xListEnd, items, p);
      NodesDiffer(xListEnd, items, at, p + 1);
      Unsplice(xListEnd, items, x, p);
      if pxIndex == x {
        pxIndex := x.pxPrevious;
      }
      x.pvContainer := null;
    }

    /** The body of `uxListRemove`, for the item at position `p`. */
    method RemoveAt(x: ListItem, ghost p: nat)
      requires Valid() && p < |items| && items[p] == x
      modifies this`items, this`at, this`uxNumberOfItems, this`pxIndex, xListEnd`pxNext, xListEnd`pxPrevious, items`pxNext,
        items`pxPrevious, x`pvContainer
      ensures Valid() && items == Unspliced(old(items), p) && at == (if old(at) > p then old(at) - 1 else old(at))
      ensures x.pvContainer == null && OwnersOf(items) == old(OwnersOf(Unspliced(items, p)))
    {
      hide OwnersOf, Linked, NodeAt, Apart, Unspliced, Contains;
      Detach(x, p);
      OutOfRange(xListEnd, items, p);
      UnsplicedNodes(xListEnd, items, p, if at > p then at - 1 else at);
      uxNumberOfItems := uxNumberOfItems - 1;
      items := Unspliced(items, p);
      at := if at > p then at - 1 else at;
    }

    /** `uxListRemove`, on the list the item's container names. */
    method Remove(x: ListItem) returns (left: nat)
      requires Valid() && x in items && NoDup(OwnersOf(items))
      modifies this`items, this`at, this`uxNumberOfItems, this`pxIndex, xListEnd`pxNext, xListEnd`pxPrevious, items`pxNext,
        items`pxPrevious, x`pvContainer
      ensures Valid() && x.pvContainer == null && left == |items| && View() == RingRemove(old(View()), x.pvOwner)
    {
      hide OwnersOf, Linked, Unspliced, RingRemove;
      ghost var p :| 0 <= p < |items| && items[p] == x;
      RemoveItem(items, at, p);
      RemoveAt(x, p);
      left := uxNumberOfItems;
    }

    /** `listGET_OWNER_OF_NEXT_ENTRY`: step the index, past the end marker if need be. */
    method GetOwnerOfNextEntry() returns (owner: nat)
      requires Valid() && items != []
      modifies this`pxIndex, this`at
      ensures Valid() && View() == RingNext(old(View())) && owner == RingCurrent(View())
    {
      assert Link(xListEnd, items, at) && Link(xListEnd, items, 0);
      pxIndex := pxIndex.pxNext;
      at := if at == |items| then 0 else at + 1;
      if pxIndex == xListEnd {
        pxIndex := pxIndex.pxNext;
        at := 1;
      }
      owner := pxIndex.pvOwner;
    }
  }


  lemma InRange(end: ListItem, items: seq<ListItem>, p: nat, x: ListItem)
    requires Apart(end, items) && p <= |items| && x !in items && x != end
    ensures Apart(end, Spliced(items, p, x)) && x in Spliced(items, p, x)
    ensures forall y :: y in Spliced(items, p, x) <==> y == x || y in items
  {
    assert items == items[..p] + items[p..];
    assert Spliced(items, p, x)[p] == x;
  }

  lemma OutOfRange(end: ListItem, items: seq<ListItem>, p: nat)
    requires Apart(end, items) && p < |items|
    ensures Apart(end, Unspliced(items, p)) && forall y :: y in Unspliced(items, p) <==> y != items[p] && y in items
  {
    assert items == items[..p] + [items[p]] + items[p + 1..];
  }

  lemma InsertedAt<T(!new)>(s: seq<T>, p: nat, x: T, i: nat)
    requires p <= |s| && i <= |s|
    ensures InsertAt(s, p, x)[i] == if i < p then s[i] else if i == p then x else s[i - 1]
  {
  }

  lemma SplicedAt(items: seq<ListItem>, p: nat, x: ListItem, i: nat)
    requires p <= |items| && i <= |items|
    ensures Spliced(items, p, x)[i] == if i < p then items[i] else if i == p then x else items[i - 1]
  {
  }

  lemma OwnersSpliced(items: seq<ListItem>, p: nat, x: ListItem)
    requires p <= |items|
    ensures OwnersOf(Spliced(items, p, x)) == InsertAt(OwnersOf(items), p, x.pvOwner)
  {
    hide OwnersOf, Spliced, InsertAt;
    var s, r := OwnersOf(items), OwnersOf(Spliced(items, p, x));
    forall i | 0 <= i < |r| ensures r[i] == InsertAt(s, p, x.pvOwner)[i] {
      SplicedAt(items, p, x, i);
      InsertedAt(s, p, x.pvOwner, i);
    }
  }

  lemma UnsplicedAt<T>(s: seq<T>, p: nat, i: nat)
    requires p < |s| && i < |s| - 1
    ensures (s[..p] + s[p + 1..])[i] == if i < p then s[i] else s[i + 1]
  {
  }

  lemma OwnersUnspliced(items: seq<ListItem>, p: nat)
    requires p < |items|
    ensures OwnersOf(Unspliced(items, p)) == OwnersOf(items)[..p] + OwnersOf(items)[p + 1..]
  {
    hide OwnersOf;
    var s, r := OwnersOf(items), OwnersOf(Unspliced(items, p));
    var t := s[..p] + s[p + 1..];
    assert |r| == |t|;
    forall i | 0 <= i < |r| ensures r[i] == t[i] {
      UnsplicedAt(items, p, i);
      UnsplicedAt(s, p, i);
    }
  }

  /** Taking out the owner of item `p` takes out item `p`, and an index beyond or on it steps back. */
  lemma RemovedView(s: seq<nat>, at: nat, p: nat)
    requires p < |s| && NoDup(s) && at <= |s|
    ensures RingRemove(Ring(s, at), s[p]) == Ring(s[..p] + s[p + 1..], if at > p then at - 1 else at)
  {
    hide Without, IndexOf;
    TakeAt(s, p);
  }

  lemma RemoveItem(items: seq<ListItem>, at: nat, p: nat)
    requires p < |items| && NoDup(OwnersOf(items)) && at <= |items|
    ensures RingRemove(Ring(OwnersOf(items), at), items[p].pvOwner)
         == Ring(OwnersOf(Unspliced(items, p)), if at > p then at - 1 else at)
  {
    hide OwnersOf, Unspliced, RingRemove;
    OwnersUnspliced(items, p);
    RemovedView(OwnersOf(items), at, p);
  }

  lemma TakeAt(s: seq<nat>, p: nat)
    requires p < |s| && NoDup(s)
    ensures IndexOf(s, s[p]) == p && Without(s, s[p]) == s[..p] + s[p + 1..]
  {
    FirstIndex(s, s[p], p);
    SplitAt(s, p);
    WithoutSplit(s[..p], s[p], s[p + 1..]);
  }

  lemma LinksAt(end: ListItem, items: seq<ListItem>, p: nat)
    requires Linked(end, items) && p < |items|
    ensures Link(end, items, p) && Link(end, items, p + 1) && items[p] == NodeAt(end, items, p + 1)
    ensures items[p].pxNext != null && items[p].pxPrevious != null
  {
    assert Link(end, items, p) && Link(end, items, p + 1);
  }

  lemma NodesDiffer(end: ListItem, items: seq<ListItem>, j: nat, k: nat)
    requires Apart(end, items) && j <= |items| && 0 < k <= |items|
    ensures NodeAt(end, items, j) == NodeAt(end, items, k) <==> j == k
  {
  }
}

/**
 The queue of queue.c: items copied by value into a byte ring addressed by two offsets, a message count,
 two lock counts and two waiting lists.  `Contents()` is the bounded sequence of items it stands for, and
 `P()` its state in the protocol of module QueueProtocol.
 */
module Queues {
  import opened Modular
  import opened Sequences
  import opened QueueProtocol

  type Byte = bv8
  type Item = seq<Byte>

  /** The slot `n` places after the one that follows slot `r`: where item `n` is, or will be written. */
  function After(r: nat, n: nat, length: nat): (k: nat)
    requires r < length && n <= length
    ensures k < length
  {
    var k := r + 1 + n;
    if k < length then k else if k < 2 * length then k - length else 0
  }

  lemma AfterIsMod(r: nat, n: nat, length: nat)
    requires r < length && n <= length
    ensures After(r, n, length) == (r + 1 + n) % length
  {
    var k := r + 1 + n;
    DivUnique(k, if k < length then 0 else if k < 2 * length then 1 else 2, After(r, n, length), length);
  }

  /** Where slot `k` begins. */
  function At(size: nat, k: nat): nat { size * k }

  /** Slots do not overlap, and lie inside the storage. */
  lemma SlotBounds(k: nat, length: nat, size: nat)
    requires k < length
    ensures At(size, k) + size <= At(size, length) && At(size, k + 1) == At(size, k) + size
  {
    assert At(size, k + 1) == At(size, k) + size;
    MulMono(size, k + 1, length);
  }

  lemma SlotsApart(j: nat, k: nat, size: nat)
    requires j < k
    ensures At(size, j) + size <= At(size, k)
  {
    assert At(size, j + 1) == At(size, j) + size;
    MulMono(size, j + 1, k);
  }

  /** The items of a ring of slots, oldest first: those after slot `r`. */
  function Items(slots: seq<Item>, r: nat, n: nat): (s: seq<Item>)
    requires r < |slots| && n <= |slots|
    ensures |s| == n
  {
    seq(n, i requires 0 <= i < n => slots[After(r, i, |slots|)])
  }

  /** Writing the slot after the last item appends. */
  lemma WriteAppends(slots: seq<Item>, r: nat, n: nat, x: Item)
    requires r < |slots| && n < |slots|
    ensures Items(slots[After(r, n, |slots|) := x], r, n + 1) == Items(slots, r, n) + [x]
  {
  }

  /** Writing the slot at the read offset and stepping it back prepends. */
  lemma WritePrepends(slots: seq<Item>, r: nat, n: nat, x: Item)
    requires r < |slots| && n < |slots|
    ensures var r' := if r == 0 then |slots| - 1 else r - 1;
      Items(slots[r := x], r', n + 1) == [x] + Items(slots, r, n)
      && After(r', n + 1, |slots|) == After(r, n, |slots|)
  {
  }

  /** Stepping the read offset forward drops the front. */
  lemma ReadDrops(slots: seq<Item>, r: nat, n: nat)
    requires r < |slots| && 0 < n <= |slots|
    ensures var r' := if r + 1 == |slots| then 0 else r + 1;
      && Items(slots, r, n)[0] == slots[r'] && Items(slots, r', n - 1) == Items(slots, r, n)[1..]
      && After(r', n - 1, |slots|) == After(r, n, |slots|)
  {
  }

  /** Overwriting the one item of a queue of length 1. */
  lemma WriteReplaces(slots: seq<Item>, n: nat, x: Item)
    requires |slots| == 1 && n <= 1
    ensures Items(slots[0 := x], 0, 1) == [x] && After(0, 1, 1) == After(0, n, 1) == 0
  {
  }

  /** What a send does to the items. */
  function Sent(items: seq<Item>, x: Item, position: Position): seq<Item> {
    match position
    case Back => items + [x]
    case Front => [x] + items
    case Overwrite => [x]
  }

  /** Sends, receives and peeks, from tasks and interrupts in any order. */
  datatype Act = SendTo(x: Item, position: Position) | Take | Peek

  /**
   The items in the queue, those received, in order, and the `line`: every item there has been but for the
   overwritten, in the order of its turn, so that the received ones are at its head.
   */
  datatype Log = Log(items: seq<Item>, taken: seq<Item>, line: seq<Item>)

  /** A send to the back joins the end of the line, one to the front goes next, and an overwrite replaces all who still wait. */
  function Joined(line: seq<Item>, turn: nat, x: Item, position: Position): seq<Item>
    requires turn <= |line|
  {
    match position
    case Back => line + [x]
    case Front => InsertAt(line, turn, x)
    case Overwrite => line[..turn] + [x]
  }

  predicate HasRoom(items: seq<Item>, length: nat, position: Position) {
    (|items| < length || position == Overwrite) && (position == Overwrite ==> length == 1)
  }

  /** One that finds no room, or no item, does nothing. */
  function Played(l: Log, length: nat, act: Act): Log
    requires |l.taken| <= |l.line|
  {
    match act
    case SendTo(x, p) =>
      if HasRoom(l.items, length, p) then Log(Sent(l.items, x, p), l.taken, Joined(l.line, |l.taken|, x, p)) else l
    case Take => if l.items == [] then l else Log(l.items[1..], l.taken + [l.items[0]], l.line)
    case Peek => l
  }

  function Play(items: seq<Item>, length: nat, acts: seq<Act>): (l: Log)
    ensures |l.taken| <= |l.line| && l.line == l.taken + l.items
    ensures |items| <= length ==> |l.items| <= length
  {
    if acts == [] then Log(items, [], items) else
      var l := Play(items, length, acts[..|acts| - 1]);
      PlayedInLine(l, length, acts[|acts| - 1]);
      Played(l, length, acts[|acts| - 1])
  }

  lemma PlayedInLine(l: Log, length: nat, act: Act)
    requires l.line == l.taken + l.items
    ensures Played(l, length, act).line == Played(l, length, act).taken + Played(l, length, act).items
    ensures |l.items| <= length ==> |Played(l, length, act).items| <= length
  {
    var n := |l.taken|;
    assert l.line[..n] == l.taken && l.line[n..] == l.items;
    match act
    case SendTo(x, p) =>
      Assoc(l.taken, l.items, [x]);
      Assoc(l.taken, [x], l.items);
    case Take => if l.items != [] { HeadAndRest(l.items); Assoc(l.taken, [l.items[0]], l.items[1..]); }
    case Peek =>
  }

  lemma HeadAndRest(items: seq<Item>)
    requires items != []
    ensures items == [items[0]] + items[1..]
  {
  }

  /** What is received next, and what a peek sees, is the first of the line not yet received. */
  lemma NextInLine(items: seq<Item>, length: nat, acts: seq<Act>)
    ensures var l := Play(items, length, acts);
      && (l.items == [] <==> |l.taken| == |l.line|)
      && (l.items != [] ==> l.items[0] == l.line[|l.taken|])
  {
  }

  /** What was sent to the front is what is received next, and then all is as before. */
  lemma FrontThenTake(l: Log, length: nat, x: Item)
    requires l.line == l.taken + l.items && |l.items| < length
    ensures var m := Played(l, length, SendTo(x, Front));
      && |m.taken| <= |m.line| && Played(m, length, Take).items == l.items && Played(m, length, Take).taken == l.taken + [x]
  {
    PlayedInLine(l, length, SendTo(x, Front));
  }

  /** What was sent to the back is received after all that were there: sending and receiving may change places. */
  lemma BackThenTake(l: Log, length: nat, x: Item)
    requires l.line == l.taken + l.items && |l.items| < length
    ensures var m, k := Played(l, length, SendTo(x, Back)), Played(l, length, Take);
      && |m.taken| <= |m.line| && |k.taken| <= |k.line|
      && if l.items == []
         then Played(m, length, Take).items == [] && Played(m, length, Take).taken == l.taken + [x]
         else Played(m, length, Take).items == Played(k, length, SendTo(x, Back)).items && Played(m, length, Take).taken == k.taken
  {
    PlayedInLine(l, length, SendTo(x, Back));
    PlayedInLine(l, length, Take);
    if l.items != [] { assert (l.items + [x])[1..] == l.items[1..] + [x]; }
  }

  /** What overwrote is the one thing there is to receive. */
  lemma OverwriteThenTake(l: Log, x: Item)
    requires l.line == l.taken + l.items && |l.items| <= 1
    ensures var m := Played(l, 1, SendTo(x, Overwrite));
      && |m.taken| <= |m.line| && |m.items| == 1 && Played(m, 1, Take).items == [] && Played(m, 1, Take).taken == l.taken + [x]
  {
    PlayedInLine(l, 1, SendTo(x, Overwrite));
  }

  function Accepted(items: seq<Item>, length: nat, acts: seq<Act>): seq<Item> {
    if acts == [] then [] else
      var was, now := acts[..|acts| - 1], acts[|acts| - 1];
      Accepted(items, length, was)
      + if now.SendTo? && HasRoom(Play(items, length, was).items, length, now.position) then [now.x] else []
  }

  /** First in, first out, when every send is to the back: received, then waiting, is accepted, in order. */
  lemma {:induction false} FirstInFirstOut(items: seq<Item>, length: nat, acts: seq<Act>)
    requires forall i :: 0 <= i < |acts| && acts[i].SendTo? ==> acts[i].position == Back
    ensures Play(items, length, acts).taken + Play(items, length, acts).items == items + Accepted(items, length, acts)
  {
    if acts != [] {
      var was, now := acts[..|acts| - 1], acts[|acts| - 1];
      FirstInFirstOut(items, length, was);
      if now.SendTo? {
        Assoc(items, Accepted(items, length, was), [now.x]);
      }
      assert Accepted(items, length, was) + [] == Accepted(items, length, was);
    }
  }

  class Queue {
    const uxLength: nat
    const uxItemSize: nat
    const pcHead: array<Byte>

    /** Offsets into the storage; `pcTail` is its length. */
    var pcWriteTo: nat
    var pcReadFrom: nat
    var uxMessagesWaiting: nat
    /** `int8_t`. */
    var cRxLock: int
    var cTxLock: int
    var xTasksWaitingToReceive: seq<TaskId>
    var xTasksWaitingToSend: seq<TaskId>

    /** The slot `pcReadFrom` names, the tasks woken and not yet back, and where a locker has got to. */
    ghost var readSlot: nat
    ghost var toReceive: seq<TaskId>
    ghost var toSend: seq<TaskId>
    ghost var phase: Phase

    // ---------------------------------------------------------------- abstraction

    ghost function Slots(): (s: seq<Item>)
      reads pcHead
      requires pcHead.Length == At(uxItemSize, uxLength)
      ensures |s| == uxLength
    {
      SlotsOf(pcHead[..], uxLength, uxItemSize)
    }

    ghost predicate Shape()
      reads `pcWriteTo, `pcReadFrom, `uxMessagesWaiting, `readSlot
    {
      && uxLength >= 1 && uxItemSize >= 1 && pcHead.Length == At(uxItemSize, uxLength)
      && uxMessagesWaiting <= uxLength && readSlot < uxLength
      && pcReadFrom == At(uxItemSize, readSlot)
      && pcWriteTo == At(uxItemSize, After(readSlot, uxMessagesWaiting, uxLength))
    }

    /** The items in the queue, oldest first. */
    ghost function Contents(): (s: seq<Item>)
      reads `pcWriteTo, `pcReadFrom, `uxMessagesWaiting, `readSlot, pcHead
      requires Shape()
      ensures |s| == uxMessagesWaiting
    {
      Items(Slots(), readSlot, uxMessagesWaiting)
    }

    ghost function P(): Q
      reads this
    {
      Q(uxLength, uxMessagesWaiting, cTxLock, cRxLock, xTasksWaitingToReceive, xTasksWaitingToSend, toReceive, toSend, phase)
    }

    ghost predicate Valid()
      reads this
    {
      Shape() && -128 <= cTxLock <= 127 && -128 <= cRxLock <= 127
    }

    lemma Fits()
      requires Shape()
      ensures |Contents()| == uxMessagesWaiting <= uxLength
    {
    }

    /** Between calls, with every woken task back: nobody waits for an item that is there, or for a free slot. */
    lemma NobodyWaitsInVain()
      requires Valid() && QueueProtocol.Inv(P()) && phase == Free && toReceive == [] && toSend == []
      ensures xTasksWaitingToReceive != [] ==> Contents() == []
      ensures xTasksWaitingToSend != [] ==> |Contents()| == uxLength
    {
    }

    // ---------------------------------------------------------------- the byte ring

    /** `memcpy` into one slot. */
    method CopyIn(offset: nat, item: Item, ghost k: nat)
      requires uxItemSize >= 1 && pcHead.Length == At(uxItemSize, uxLength)
      requires |item| == uxItemSize && k < uxLength && offset == At(uxItemSize, k)
      modifies pcHead
      ensures Slots() == old(Slots())[k := item]
    {
      hide At;
      SlotBounds(k, uxLength, uxItemSize);
      forall i | 0 <= i < uxItemSize {
        pcHead[offset + i] := item[i];
      }
      SlotWritten(old(pcHead[..]), pcHead[..], uxLength, uxItemSize, k, item);
    }

    /** `memcpy` out of one slot. */
    method CopyOut(offset: nat, ghost k: nat) returns (item: Item)
      requires uxItemSize >= 1 && pcHead.Length == At(uxItemSize, uxLength) && k < uxLength && offset == At(uxItemSize, k)
      ensures item == Slots()[k]
    {
      hide At;
      SlotBounds(k, uxLength, uxItemSize);
      SlotIs(pcHead[..], uxLength, uxItemSize, k);
      item := pcHead[offset..offset + uxItemSize];
    }

    /** `prvCopyDataToQueue`, for items of at least one byte. */
    method CopyDataToQueue(item: Item, position: Position)
      requires Shape() && |item| == uxItemSize && Accepts(P(), position)
      modifies pcHead, `pcWriteTo, `pcReadFrom, `readSlot, `uxMessagesWaiting
      ensures Shape() && P() == Put(old(P()), position)
      ensures Contents() == Sent(old(Contents()), item, position)
    {
      hide At;
      ghost var slots, r, n := Slots(), readSlot, uxMessagesWaiting;
      var uxMessages := uxMessagesWaiting;
      if position == Back {
        ghost var w := After(r, n, uxLength);
        WriteAppends(slots, r, n, item);
        NextSlot(w, uxLength, uxItemSize);
        AfterNext(r, n, uxLength);
        CopyIn(pcWriteTo, item, w);
        pcWriteTo := pcWriteTo + uxItemSize;
        if pcWriteTo >= pcHead.Length {
          pcWriteTo := 0;
        }
      } else {
        PreviousSlot(r, uxLength, uxItemSize);
        if position == Front { WritePrepends(slots, r, n, item); } else { WriteReplaces(slots, n, item); }
        CopyIn(pcReadFrom, item, r);
        if pcReadFrom < uxItemSize {
          pcReadFrom := pcHead.Length - uxItemSize;
        } else {
          pcReadFrom := pcReadFrom - uxItemSize;
        }
        readSlot := if r == 0 then uxLength - 1 else r - 1;
        if position == Overwrite {
          if uxMessages > 0 {
            uxMessages := uxMessages - 1;
          }
        }
      }
      uxMessagesWaiting := uxMessages + 1;
    }

    /** `prvCopyDataFromQueue`, with the message count taken down by the caller unless it only peeks. */
    method CopyDataFromQueue(justPeeking: bool) returns (item: Item)
      requires Shape() && uxMessagesWaiting > 0
      modifies `pcReadFrom, `readSlot, `uxMessagesWaiting
      ensures Shape() && item == old(Contents())[0]
      ensures justPeeking ==> P() == old(P()) && Contents() == old(Contents())
      ensures !justPeeking ==> P() == old(P()).(messages := old(uxMessagesWaiting) - 1) && Contents() == old(Contents())[1..]
    {
      hide At;
      var pcOriginalReadPosition := pcReadFrom;
      ghost var r := readSlot;
      NextSlot(r, uxLength, uxItemSize);
      ReadDrops(Slots(), r, uxMessagesWaiting);
      pcReadFrom := pcReadFrom + uxItemSize;
      if pcReadFrom >= pcHead.Length {
        pcReadFrom := 0;
      }
      readSlot := if r + 1 == uxLength then 0 else r + 1;
      item := CopyOut(pcReadFrom, readSlot);
      if !justPeeking {
        uxMessagesWaiting := uxMessagesWaiting - 1;
      } else {
        pcReadFrom := pcOriginalReadPosition;
        readSlot := r;
      }
    }

    constructor (length: nat, itemSize: nat)
      requires length >= 1 && itemSize >= 1
      ensures Valid() && fresh(pcHead) && uxLength == length && uxItemSize == itemSize && Contents() == []
      ensures P() == Q(length, 0, UNLOCKED, UNLOCKED, [], [], [], [], Free) && QueueProtocol.Inv(P())
    {
      uxLength, uxItemSize := length, itemSize;
      pcHead := new Byte[At(itemSize, length)];
      pcWriteTo, pcReadFrom, uxMessagesWaiting := 0, At(itemSize, length - 1), 0;
      cRxLock, cTxLock := UNLOCKED, UNLOCKED;
      xTasksWaitingToReceive, xTasksWaitingToSend := [], [];
      readSlot, toReceive, toSend, phase := length - 1, [], [], Free;
    }

    // ---------------------------------------------------------------- waking

    /** `xTaskRemoveFromEventList( &( pxQueue->xTasksWaitingToReceive ) )`, if the list is not empty. */
    method WakeOneReceiver()
      modifies `xTasksWaitingToReceive, `toReceive
      ensures P() == WakeReceiver(old(P()))
    {
      if xTasksWaitingToReceive != [] {
        toReceive := toReceive + [xTasksWaitingToReceive[0]];
        xTasksWaitingToReceive := xTasksWaitingToReceive[1..];
      }
    }

    method WakeOneSender()
      modifies `xTasksWaitingToSend, `toSend
      ensures P() == WakeSender(old(P()))
    {
      if xTasksWaitingToSend != [] {
        toSend := toSend + [xTasksWaitingToSend[0]];
        xTasksWaitingToSend := xTasksWaitingToSend[1..];
      }
    }

    // ---------------------------------------------------------------- tasks

    /** The critical section of `xQueueGenericSend`, by task `t`: false when there is no room. */
    method Send(item: Item, position: Position, ghost t: TaskId) returns (sent: bool)
      requires Valid() && |item| == uxItemSize && (position == Overwrite ==> uxLength == 1)
      modifies this, pcHead
      ensures Valid() && sent == Accepts(old(P()), position)
      ensures P() == if sent then TaskSend(old(P()), t, position) else TaskFindsFull(old(P()), t)
      ensures Contents() == if sent then Sent(old(Contents()), item, position) else old(Contents())
      ensures old(phase) == Free ==> Steps(old(P()), if sent then Op.Send(t, position) else FindFull(t), P())
    {
      hide Shape, Slots, Contents, QueueProtocol.Inv;
      ghost var before := P();
      Fits();
      toSend := Without(toSend, t);
      if uxMessagesWaiting < uxLength || position == Overwrite {
        CopyDataToQueue(item, position);
        WakeOneReceiver();
        sent := true;
      } else {
        sent := false;
      }
      if before.phase == Free { StepsBy(before, if sent then Op.Send(t, position) else FindFull(t), P()); }
    }

    /** The critical section of `xQueueGenericReceive`, by task `t`: nothing when the queue is empty. */
    method Receive(justPeeking: bool, ghost t: TaskId) returns (received: bool, item: Item)
      requires Valid()
      modifies this
      ensures Valid() && received == (old(uxMessagesWaiting) > 0)
      ensures received ==> item == old(Contents())[0]
      ensures !received ==> P() == TaskFindsEmpty(old(P()), t) && Contents() == old(Contents())
      ensures received && justPeeking ==> P() == TaskPeek(old(P()), t) && Contents() == old(Contents())
      ensures received && !justPeeking ==> P() == TaskReceive(old(P()), t) && Contents() == old(Contents())[1..]
      ensures old(phase) == Free ==>
          Steps(old(P()), if !received then FindEmpty(t) else if justPeeking then Op.Peek(t) else Op.Receive(t), P())
    {
      hide Shape, Slots, Contents, QueueProtocol.Inv;
      ghost var before := P();
      Fits();
      toReceive := Without(toReceive, t);
      item := [];
      if uxMessagesWaiting > 0 {
        item := CopyDataFromQueue(justPeeking);
        if !justPeeking {
          WakeOneSender();
        } else {
          WakeOneReceiver();
        }
        received := true;
      } else {
        received := false;
      }
      if before.phase == Free {
        StepsBy(before, if !received then FindEmpty(t) else if justPeeking then Op.Peek(t) else Op.Receive(t), P());
      }
    }

    // ---------------------------------------------------------------- interrupts

    /** `xQueueGenericSendFromISR`. */
    method SendFromISR(item: Item, position: Position) returns (sent: bool)
      requires Valid() && |item| == uxItemSize && (position == Overwrite ==> uxLength == 1)
      modifies this, pcHead
      ensures Valid() && sent == Accepts(old(P()), position)
      ensures P() == if sent then IsrSend(old(P()), position) else old(P())
      ensures Contents() == if sent then Sent(old(Contents()), item, position) else old(Contents())
      ensures sent && -1 <= old(cTxLock) < 127 ==> Steps(old(P()), Op.SendFromISR(position), P())
    {
      hide Shape, Slots, Contents, QueueProtocol.Inv;
      ghost var before := P();
      Fits();
      if uxMessagesWaiting < uxLength || position == Overwrite {
        var txLock := cTxLock;
        CopyDataToQueue(item, position);
        if txLock == UNLOCKED {
          WakeOneReceiver();
        } else {
          cTxLock := Increment8(txLock);
        }
        sent := true;
      } else {
        sent := false;
      }
      if sent && -1 <= before.tx < 127 { StepsBy(before, Op.SendFromISR(position), P()); }
    }

    /** `xQueueReceiveFromISR`. */
    method ReceiveFromISR() returns (received: bool, item: Item)
      requires Valid()
      modifies this
      ensures Valid() && received == (old(uxMessagesWaiting) > 0)
      ensures P() == if received then IsrReceive(old(P())) else old(P())
      ensures received ==> item == old(Contents())[0] && Contents() == old(Contents())[1..]
      ensures !received ==> Contents() == old(Contents())
      ensures received && -1 <= old(cRxLock) < 127 ==> Steps(old(P()), Op.ReceiveFromISR, P())
    {
      hide Shape, Slots, Contents, QueueProtocol.Inv;
      ghost var before := P();
      Fits();
      item := [];
      if uxMessagesWaiting > 0 {
        var rxLock := cRxLock;
        item := CopyDataFromQueue(false);
        if rxLock == UNLOCKED {
          WakeOneSender();
        } else {
          cRxLock := Increment8(rxLock);
        }
        received := true;
      } else {
        received := false;
      }
      if received && -1 <= before.rx < 127 { StepsBy(before, Op.ReceiveFromISR, P()); }
    }

    /** `xQueuePeekFromISR`, which wakes nobody. */
    method PeekFromISR() returns (received: bool, item: Item)
      requires Valid()
      modifies this
      ensures Valid() && P() == old(P()) && Contents() == old(Contents())
      ensures received == (uxMessagesWaiting > 0) && (received ==> item == Contents()[0])
    {
      item := [];
      received := uxMessagesWaiting > 0;
      if received {
        item := CopyDataFromQueue(true);
      }
    }

    // ---------------------------------------------------------------- locking

    /** `prvLockQueue`. */
    method LockQueue()
      requires Valid()
      modifies `cRxLock, `cTxLock, `phase
      ensures Valid() && P() == Lock(old(P())) && Contents() == old(Contents())
      ensures old(phase) == Free ==> Steps(old(P()), DoLock, P())
    {
      hide Shape, Slots, Contents, QueueProtocol.Inv;
      ghost var before := P();
      if cRxLock == UNLOCKED {
        cRxLock := LOCKED;
      }
      if cTxLock == UNLOCKED {
        cTxLock := LOCKED;
      }
      phase := Locked;
      if before.phase == Free { StepsBy(before, DoLock, P()); }
    }

    /** `prvIsQueueEmpty`, by the task that has locked the queue. */
    method IsQueueEmpty() returns (empty: bool)
      requires Valid()
      modifies `phase
      ensures Valid() && P() == CheckEmpty(old(P())) && empty == (Contents() == []) && Contents() == old(Contents())
      ensures old(phase) == Locked ==> Steps(old(P()), SeeIfEmpty, P())
    {
      hide Shape, Slots, Contents, QueueProtocol.Inv;
      ghost var before := P();
      Fits();
      empty := uxMessagesWaiting == 0;
      if empty {
        phase := SawEmpty;
      }
      if before.phase == Locked { StepsBy(before, SeeIfEmpty, P()); }
    }

    method IsQueueFull() returns (full: bool)
      requires Valid()
      modifies `phase
      ensures Valid() && P() == CheckFull(old(P())) && full == (|Contents()| == uxLength) && Contents() == old(Contents())
      ensures old(phase) == Locked ==> Steps(old(P()), SeeIfFull, P())
    {
      hide Shape, Slots, Contents, QueueProtocol.Inv;
      ghost var before := P();
      Fits();
      full := uxMessagesWaiting == uxLength;
      if full {
        phase := SawFull;
      }
      if before.phase == Locked { StepsBy(before, SeeIfFull, P()); }
    }

    /** `vTaskPlaceOnEventList`, at the place the task's priority gives it. */
    method PlaceToReceive(t: TaskId, at: nat)
      requires Valid() && at <= |xTasksWaitingToReceive|
      modifies `xTasksWaitingToReceive, `phase
      ensures Valid() && P() == WaitToReceive(old(P()), t, at) && Contents() == old(Contents())
      ensures old(phase) == SawEmpty ==> Steps(old(P()), BlockToReceive(t, at), P())
    {
      hide Shape, Slots, Contents, QueueProtocol.Inv;
      ghost var before := P();
      xTasksWaitingToReceive := InsertAt(xTasksWaitingToReceive, at, t);
      phase := Locked;
      if before.phase == SawEmpty { StepsBy(before, BlockToReceive(t, at), P()); }
    }

    method PlaceToSend(t: TaskId, at: nat)
      requires Valid() && at <= |xTasksWaitingToSend|
      modifies `xTasksWaitingToSend, `phase
      ensures Valid() && P() == WaitToSend(old(P()), t, at) && Contents() == old(Contents())
      ensures old(phase) == SawFull ==> Steps(old(P()), BlockToSend(t, at), P())
    {
      hide Shape, Slots, Contents, QueueProtocol.Inv;
      ghost var before := P();
      xTasksWaitingToSend := InsertAt(xTasksWaitingToSend, at, t);
      phase := Locked;
      if before.phase == SawFull { StepsBy(before, BlockToSend(t, at), P()); }
    }

    /** A waiting task's block time ends, or it is suspended or deleted: the kernel takes its item off the list. */
    method LeaveLists(t: TaskId)
      requires Valid()
      modifies `xTasksWaitingToReceive, `xTasksWaitingToSend
      ensures Valid() && P() == StopWaiting(old(P()), t) && Contents() == old(Contents())
      ensures phase == Free ==> Steps(old(P()), GiveUp(t), P())
    {
      hide Shape, Slots, Contents, Without;
      ghost var before := P();
      xTasksWaitingToReceive := Without(xTasksWaitingToReceive, t);
      xTasksWaitingToSend := Without(xTasksWaitingToSend, t);
      if phase == Free { StepsBy(before, GiveUp(t), P()); }
    }

    /** The first critical section of `prvUnlockQueue`. */
    method UnlockTxSide()
      requires Valid()
      modifies `cTxLock, `xTasksWaitingToReceive, `toReceive, `phase
      ensures Valid() && P() == UnlockTx(old(P())) && Contents() == old(Contents())
      ensures old(phase) != Free && old(phase) != HalfOpen ==> Steps(old(P()), DoUnlockTx, P())
    {
      hide Shape, Slots, Contents, QueueProtocol.Inv;
      ghost var before := P();
      ghost var q := P();
      var txLock := cTxLock;
      ghost var moved := 0;
      while txLock > LOCKED
        invariant moved <= |q.receivers| && Pending(txLock) + moved == Pending(q.tx) && txLock <= q.tx
        invariant xTasksWaitingToReceive == q.receivers[moved..] && toReceive == q.toReceive + q.receivers[..moved]
        invariant cTxLock == q.tx && phase == q.phase
      {
        if xTasksWaitingToReceive == [] {
          break;
        }
        assert q.receivers[..moved + 1] == q.receivers[..moved] + [q.receivers[moved]];
        WakeOneReceiver();
        moved := moved + 1;
        txLock := txLock - 1;
      }
      cTxLock := UNLOCKED;
      phase := HalfOpen;
      if before.phase != Free && before.phase != HalfOpen { StepsBy(before, DoUnlockTx, P()); }
    }

    /** The second one. */
    method UnlockRxSide()
      requires Valid()
      modifies `cRxLock, `xTasksWaitingToSend, `toSend, `phase
      ensures Valid() && P() == UnlockRx(old(P())) && Contents() == old(Contents())
      ensures old(phase) == HalfOpen ==> Steps(old(P()), DoUnlockRx, P())
    {
      hide Shape, Slots, Contents, QueueProtocol.Inv;
      ghost var before := P();
      ghost var q := P();
      var rxLock := cRxLock;
      ghost var moved := 0;
      while rxLock > LOCKED
        invariant moved <= |q.senders| && Pending(rxLock) + moved == Pending(q.rx) && rxLock <= q.rx
        invariant xTasksWaitingToSend == q.senders[moved..] && toSend == q.toSend + q.senders[..moved]
        invariant cRxLock == q.rx && phase == q.phase
      {
        if xTasksWaitingToSend == [] {
          break;
        }
        assert q.senders[..moved + 1] == q.senders[..moved] + [q.senders[moved]];
        WakeOneSender();
        moved := moved + 1;
        rxLock := rxLock - 1;
      }
      cRxLock := UNLOCKED;
      phase := Free;
      if before.phase == HalfOpen { StepsBy(before, DoUnlockRx, P()); }
    }

    /** `xQueueGenericReset` of a queue in use. */
    method GenericReset()
      requires Valid() && phase == Free
      modifies this
      ensures Valid() && P() == Reset(old(P())) && Contents() == []
    {
      hide At;
      NextSlot(0, uxLength, uxItemSize);
      PreviousSlot(0, uxLength, uxItemSize);
      uxMessagesWaiting := 0;
      pcWriteTo := 0;
      pcReadFrom := At(uxItemSize, uxLength - 1);
      readSlot := uxLength - 1;
      cRxLock := UNLOCKED;
      cTxLock := UNLOCKED;
      WakeOneSender();
    }
  }

  /** A step of the protocol, which keeps its invariant. */
  ghost predicate Steps(q: Q, op: Op, r: Q) {
    Next(q, op, r) && (QueueProtocol.Inv(q) ==> QueueProtocol.Inv(r))
  }

  lemma StepsBy(q: Q, op: Op, r: Q)
    requires Next(q, op, r)
    ensures Steps(q, op, r)
  {
    hide Next, QueueProtocol.Inv;
    if QueueProtocol.Inv(q) { StepKeeps(q, op, r); }
  }

  ghost function SlotsOf(bytes: seq<Byte>, length: nat, size: nat): (s: seq<Item>)
    requires |bytes| == At(size, length)
    ensures |s| == length
  {
    seq(length, k requires 0 <= k < length => SlotBytes(bytes, length, size, k))
  }

  function SlotBytes(bytes: seq<Byte>, length: nat, size: nat, k: nat): (item: Item)
    requires |bytes| == At(size, length) && k < length
    ensures |item| == size
  {
    SlotBounds(k, length, size);
    bytes[At(size, k)..At(size, k) + size]
  }

  lemma SlotIs(bytes: seq<Byte>, length: nat, size: nat, k: nat)
    requires |bytes| == At(size, length) && k < length
    ensures At(size, k) + size <= |bytes| && SlotsOf(bytes, length, size)[k] == bytes[At(size, k)..At(size, k) + size]
  {
    hide At;
    SlotBounds(k, length, size);
  }

  lemma SlotWritten(before: seq<Byte>, after: seq<Byte>, length: nat, size: nat, k: nat, item: Item)
    requires |before| == |after| == At(size, length) && k < length && |item| == size && At(size, k) + size <= |before|
    requires forall i :: 0 <= i < size ==> after[At(size, k) + i] == item[i]
    requires forall i :: 0 <= i < |before| && !(At(size, k) <= i < At(size, k) + size) ==> after[i] == before[i]
    ensures SlotsOf(after, length, size) == SlotsOf(before, length, size)[k := item]
  {
    hide At;
    forall j | 0 <= j < length ensures SlotsOf(after, length, size)[j] == SlotsOf(before, length, size)[k := item][j] {
      SlotBounds(j, length, size);
      SlotIs(before, length, size, j);
      SlotIs(after, length, size, j);
      if j == k {
        assert after[At(size, k)..At(size, k) + size] == item;
      } else {
        if j < k { SlotsApart(j, k, size); } else { SlotsApart(k, j, size); }
        assert after[At(size, j)..At(size, j) + size] == before[At(size, j)..At(size, j) + size];
      }
    }
  }

  lemma NextSlot(k: nat, length: nat, size: nat)
    requires k < length && size >= 1
    ensures At(size, k) + size >= At(size, length) <==> k + 1 == length
    ensures k + 1 < length ==> At(size, k) + size == At(size, k + 1)
    ensures At(size, 0) == 0
  {
    SlotBounds(k, length, size);
    if k + 1 < length { SlotsApart(k + 1, length, size); }
  }

  lemma PreviousSlot(k: nat, length: nat, size: nat)
    requires k < length && size >= 1
    ensures At(size, k) < size <==> k == 0
    ensures k > 0 ==> At(size, k) - size == At(size, k - 1)
    ensures At(size, length) - size == At(size, length - 1) >= 0
  {
    assert At(size, length - 1) + size == At(size, length);
    if k > 0 { SlotBounds(k - 1, length, size); MulMono(size, 1, k); assert At(size, 1) == size; }
  }

  lemma AfterNext(r: nat, n: nat, length: nat)
    requires r < length && n < length
    ensures var w := After(r, n, length); After(r, n + 1, length) == if w + 1 == length then 0 else w + 1
  {
  }
}

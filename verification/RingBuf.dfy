/**
 The single-producer, single-consumer ring buffer of ringbuf.c.  Indices wrap by masking; one slot always
 stays empty.  Put and get are split into the steps another context can see between: the check of the other
 side's index, the access to the data, and the publication of one's own index.
 */
module RingBuf {
  import opened Modular

  type Byte = x: int | 0 <= x < 256

  // ------------------------------------------------------------------ masking

  function Pow2(k: nat): (p: nat)
    ensures p >= 1
  {
    if k == 0 then 1 else 2 * Pow2(k - 1)
  }

  /** Bitwise and. */
  function And(x: nat, m: nat): nat
    decreases m
  {
    if m == 0 then 0 else 2 * And(x / 2, m / 2) + (x % 2) * (m % 2)
  }

  lemma Doubled(a: nat, b: nat)
    ensures (2 * a) * b == 2 * (a * b) == a * (2 * b)
  {
  }

  lemma HalfMod(x: nat, p: nat)
    requires p >= 1
    ensures 2 * ((x / 2) % p) + x % 2 == x % (2 * p)
  {
    var h := x / 2;
    var q, r := h / p, h % p;
    assert h == p * q + r;
    Doubled(p, q);
    DivUnique(x, q, 2 * r + x % 2, 2 * p);
  }

  /** Masking with a power of two less one is the remainder. */
  lemma {:induction false} AndIsMod(x: nat, k: nat)
    ensures And(x, Pow2(k) - 1) == x % Pow2(k)
  {
    hide And;
    if k == 0 {
      NoMask(x);
    } else {
      var p := Pow2(k - 1);
      AndIsMod(x / 2, k - 1);
      HalfMod(x, p);
      OddMask(x, p);
    }
  }

  lemma NoMask(x: nat)
    ensures And(x, 0) == 0 == x % 1
  {
  }

  lemma OddMask(x: nat, p: nat)
    requires p >= 1
    ensures And(x, 2 * p - 1) == 2 * And(x / 2, p - 1) + x % 2
  {
    assert (2 * p - 1) / 2 == p - 1 && (2 * p - 1) % 2 == 1;
  }

  /** `( a - b ) & mask` on C's `int`, whose negative values are 32-bit two's complement. */
  function MaskedDifference(a: nat, b: nat, mask: nat): nat
    requires a < 0x1_0000 && b < 0x1_0000
  {
    And(if a >= b then a - b else a - b + 0x1_0000_0000, mask)
  }

  lemma {:induction false} Pow2Divides(k: nat, j: nat)
    requires k <= j
    ensures Pow2(j) == Pow2(k) * Pow2(j - k)
    decreases j
  {
    if k < j {
      Pow2Divides(k, j - 1);
      Doubled(Pow2(k), Pow2(j - 1 - k));
    }
  }

  lemma Pow2Of32()
    ensures Pow2(15) == 0x8000 && Pow2(32) == 0x1_0000_0000
  {
    assert Pow2(4) == 16 && Pow2(8) == 16 * Pow2(4);
    assert Pow2(12) == 16 * Pow2(8) && Pow2(16) == 16 * Pow2(12);
    assert Pow2(20) == 16 * Pow2(16) && Pow2(24) == 16 * Pow2(20);
    assert Pow2(28) == 16 * Pow2(24) && Pow2(32) == 16 * Pow2(28);
    assert Pow2(15) == 8 * Pow2(12);
  }

  /** The masked difference of two wrapped counters is their true difference, while that is below the size. */
  lemma DifferenceIs(size: nat, k: nat, a: nat, b: nat)
    requires k <= 15 && size == Pow2(k) && b <= a < b + size
    ensures size <= 0x8000 && MaskedDifference(a % size, b % size, size - 1) == a - b
  {
    hide Pow2, And;
    Pow2Of32();
    Pow2Divides(k, 15);
    Pow2Divides(k, 32);
    SizeFits(size, Pow2(15 - k));
    AddWithin(b, a - b, size);
    var x, y := a % size, b % size;
    AndIsMod(if x >= y then x - y else x - y + 0x1_0000_0000, k);
    if x >= y {
      DivUnique(a - b, 0, a - b, size);
    } else {
      WrappedMod(a - b, size, Pow2(32 - k));
    }
  }

  lemma WrappedMod(d: nat, size: nat, turns: nat)
    requires d < size && size * turns == 0x1_0000_0000 && turns >= 1
    ensures (d - size + 0x1_0000_0000) % size == d
  {
    AddTurns(d, turns - 1, size);
    assert size * (turns - 1) + size == size * turns;
    DivUnique(d, 0, d, size);
  }

  lemma SizeFits(size: nat, rest: nat)
    requires size * rest == 0x8000 && rest >= 1
    ensures size <= 0x8000
  {
    MulMono(size, 1, rest);
  }

  lemma NextIs(size: nat, k: nat, a: nat)
    requires size == Pow2(k)
    ensures And(a % size + 1, size - 1) == (a + 1) % size
  {
    AndIsMod(a % size + 1, k);
    if size == 1 {
    } else {
      AddWithin(a, 1, size);
      if a % size + 1 < size { DivUnique(a % size + 1, 0, a % size + 1, size); } else { DivUnique(size, 1, 0, size); }
    }
  }

  // ------------------------------------------------------------------ the two sides, step by step

  datatype Producer = PIdle | Room(c: Byte) | Stored(c: Byte)
  datatype Consumer = CIdle | Filled | Fetched(c: Byte)

  /** `accepted` are the bytes put has taken, `returned` those get has given back. */
  datatype State = State(k: nat, data: seq<Byte>, put: nat, get: nat, producer: Producer, consumer: Consumer,
                         accepted: seq<Byte>, returned: seq<Byte>)

  function Size(s: State): (n: nat)
    ensures n >= 1
  {
    Pow2(s.k)
  }

  function Elements(s: State): nat
    requires s.put < 0x1_0000 && s.get < 0x1_0000
  {
    MaskedDifference(s.put, s.get, Size(s) - 1)
  }

  ghost predicate Inv(s: State) {
    && s.k <= 15 && |s.data| == Size(s)
    && |s.returned| <= |s.accepted| < |s.returned| + Size(s)
    && s.put == |s.accepted| % Size(s) && s.get == |s.returned| % Size(s)
    && s.put < 0x1_0000 && s.get < 0x1_0000
    && s.returned == s.accepted[..|s.returned|]
    && (forall i :: |s.returned| <= i < |s.accepted| ==> s.data[i % Size(s)] == s.accepted[i])
    && (s.producer != PIdle ==> |s.accepted| + 1 < |s.returned| + Size(s))
    && (s.producer.Stored? ==> s.data[s.put] == s.producer.c)
    && (s.consumer != CIdle ==> |s.returned| < |s.accepted|)
    && (s.consumer.Fetched? ==> s.consumer.c == s.accepted[|s.returned|])
  }

  datatype Step = PutCheck(c: nat) | PutStore | PutPublish | GetCheck | GetFetch | GetPublish

  /** A check that fails ends the call at once; put stores the low byte of its 16-bit argument. */
  ghost predicate Next(s: State, step: Step, r: State)
    requires s.put < 0x1_0000 && s.get < 0x1_0000 && |s.data| == Size(s)
  {
    match step
    case PutCheck(c) =>
      s.producer == PIdle && r == if Elements(s) == Size(s) - 1 then s else s.(producer := Room(c % 256))
    case PutStore =>
      s.producer.Room? && s.put < |s.data| && r == s.(data := s.data[s.put := s.producer.c], producer := Stored(s.producer.c))
    case PutPublish =>
      s.producer.Stored?
      && r == s.(put := And(s.put + 1, Size(s) - 1), producer := PIdle, accepted := s.accepted + [s.producer.c])
    case GetCheck => s.consumer == CIdle && r == if Elements(s) > 0 then s.(consumer := Filled) else s
    case GetFetch => s.consumer == Filled && s.get < |s.data| && r == s.(consumer := Fetched(s.data[s.get]))
    case GetPublish =>
      s.consumer.Fetched?
      && r == s.(get := And(s.get + 1, Size(s) - 1), consumer := CIdle, returned := s.returned + [s.consumer.c])
  }

  /** Fewer than a whole turn apart, two counters name different slots. */
  lemma SlotsDiffer(i: nat, j: nat, size: nat)
    requires i < j < i + size
    ensures i % size != j % size
  {
    AddWithin(i, j - i, size);
  }

  /** Put never stores into a slot whose byte has not been returned, not even one get is reading. */
  lemma StoreSparesUnread(s: State, i: nat)
    requires Inv(s) && s.producer.Room? && |s.returned| <= i < |s.accepted|
    ensures s.put != i % Size(s)
  {
    SlotsDiffer(i, |s.accepted|, Size(s));
  }

  lemma SmallSize(s: State)
    requires Inv(s)
    ensures Size(s) <= 0x8000 && Elements(s) == |s.accepted| - |s.returned|
    ensures s.put < Size(s) && s.get < Size(s)
  {
    DifferenceIs(Size(s), s.k, |s.accepted|, |s.returned|);
  }

  lemma StepKeeps(s: State, step: Step, r: State)
    requires Inv(s) && Next(s, step, r)
    ensures Inv(r)
  {
    hide Pow2, And, MaskedDifference;
    var size := Size(s);
    SmallSize(s);
    match step
    case PutCheck(c) =>
    case PutStore =>
      forall i | |r.returned| <= i < |r.accepted| ensures r.data[i % size] == r.accepted[i] {
        StoreSparesUnread(s, i);
      }
      if s.consumer.Fetched? { StoreSparesUnread(s, |s.returned|); }
    case PutPublish => NextIs(size, s.k, |s.accepted|);
    case GetCheck =>
    case GetFetch =>
    case GetPublish =>
      NextIs(size, s.k, |s.returned|);
      assert s.accepted[..|r.returned|] == s.accepted[..|s.returned|] + [s.accepted[|s.returned|]];
  }

  ghost predicate IsRun(states: seq<State>, steps: seq<Step>) {
    |states| == |steps| + 1
    && forall i :: 0 <= i < |steps| ==> Inv(states[i]) ==> Next(states[i], steps[i], states[i + 1])
  }

  /** `ringbuf_init` with a size of `2 ^ k`. */
  function Start(k: nat, data: seq<Byte>): State {
    State(k, data, 0, 0, PIdle, CIdle, [], [])
  }

  lemma StartInv(k: nat, data: seq<Byte>)
    requires k <= 15 && |data| == Pow2(k)
    ensures Inv(Start(k, data))
  {
    DivUnique(0, 0, 0, Pow2(k));
  }

  lemma {:induction false} RunKeeps(states: seq<State>, steps: seq<Step>, n: nat)
    requires IsRun(states, steps) && Inv(states[0]) && n < |states|
    ensures Inv(states[n])
  {
    hide Inv, Next;
    if n > 0 {
      RunKeeps(states, steps, n - 1);
      StepKeeps(states[n - 1], steps[n - 1], states[n]);
    }
  }

  /**
   For any size and any interleaving of the steps of one producer and one consumer: the bytes returned are the
   first of the bytes accepted, in order, and never more than size - 1 are held.
   */
  lemma BytesInOrder(k: nat, data: seq<Byte>, states: seq<State>, steps: seq<Step>, n: nat)
    requires k <= 15 && |data| == Pow2(k) && IsRun(states, steps) && states[0] == Start(k, data) && n < |states|
    ensures states[n].returned <= states[n].accepted
    ensures |states[n].accepted| - |states[n].returned| <= Size(states[n]) - 1
  {
    StartInv(k, data);
    RunKeeps(states, steps, n);
  }

  // ------------------------------------------------------------------ the buffer itself

  class Buffer {
    const data: array<Byte>
    var mask: nat
    var put_ptr: nat
    var get_ptr: nat

    ghost var k: nat
    ghost var accepted: seq<Byte>
    ghost var returned: seq<Byte>

    ghost function Abs(): State
      reads this, data
    {
      State(k, data[..], put_ptr, get_ptr, PIdle, CIdle, accepted, returned)
    }

    ghost predicate Valid()
      reads this, data
    {
      Inv(Abs()) && mask == Pow2(k) - 1
    }

    /** `ringbuf_init`: the size must be a power of two that fits in 16 bits. */
    constructor (data: array<Byte>, size: nat, ghost k: nat)
      requires k <= 15 && size == Pow2(k) == data.Length
      ensures Valid() && this.data == data && accepted == returned == [] && this.k == k
    {
      this.data := data;
      mask, put_ptr, get_ptr := size - 1, 0, 0;
      this.k, accepted, returned := k, [], [];
      new;
      StartInv(k, data[..]);
    }

    /** `ringbuf_put`, its three steps at once: 0 when the buffer is full, else 1. */
    method Put(c: nat) returns (r: int)
      requires Valid()
      modifies this`put_ptr, this`accepted, data
      ensures Valid() && (r == 0 || r == 1)
      ensures r == 0 <==> |old(accepted)| - |returned| == Pow2(k) - 1
      ensures accepted == if r == 1 then old(accepted) + [c % 256] else old(accepted)
    {
      hide Inv, Pow2, And, MaskedDifference;
      InvParts(Abs());
      SmallSize(Abs());
      if MaskedDifference(put_ptr, get_ptr, mask) == mask {
        return 0;
      }
      ghost var s := Abs();
      ghost var s1, s2 := s.(producer := Room(c % 256)), s.(data := s.data[s.put := c % 256], producer := Stored(c % 256));
      StepKeeps(s, PutCheck(c), s1);
      StepKeeps(s1, PutStore, s2);
      data[put_ptr] := c % 256;
      put_ptr := And(put_ptr + 1, mask);
      accepted := accepted + [c % 256];
      InvParts(s2);
      StepKeeps(s2, PutPublish, Abs());
      return 1;
    }

    /** `ringbuf_get`: the oldest byte not yet returned, or -1 when there is none. */
    method Get() returns (r: int)
      requires Valid()
      modifies this`get_ptr, this`returned
      ensures Valid()
      ensures r == -1 <==> |old(returned)| == |accepted|
      ensures r == -1 ==> returned == old(returned)
      ensures r != -1 ==>
          |old(returned)| < |accepted| && r == accepted[|old(returned)|] && returned == old(returned) + [accepted[|old(returned)|]]
    {
      hide Pow2, And, MaskedDifference;
      SmallSize(Abs());
      if MaskedDifference(put_ptr, get_ptr, mask) > 0 {
        ghost var s := Abs();
        var c := data[get_ptr];
        ghost var s1, s2 := s.(consumer := Filled), s.(consumer := Fetched(c));
        StepKeeps(s, GetCheck, s1);
        StepKeeps(s1, GetFetch, s2);
        get_ptr := And(get_ptr + 1, mask);
        returned := returned + [c];
        StepKeeps(s2, GetPublish, Abs());
        return c;
      } else {
        return -1;
      }
    }

    /** `ringbuf_elements`. */
    method CountElements() returns (n: nat)
      requires Valid()
      ensures n == |accepted| - |returned| <= Pow2(k) - 1
    {
      hide Pow2, And, MaskedDifference;
      SmallSize(Abs());
      n := MaskedDifference(put_ptr, get_ptr, mask);
    }
  }

  lemma InvParts(s: State)
    requires Inv(s)
    ensures s.put < 0x1_0000 && s.get < 0x1_0000 && |s.data| == Size(s) && s.k <= 15
  {
  }
}

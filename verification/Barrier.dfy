/**
 The barrier of `xEventGroupSync`: tasks 0 to n - 1, each with a bit of its own, meet on the union W of
 their bits, again and again, while other tasks use the group's other bits.
 */
module Barrier {
  import opened EventGroups

  /**
   `inside` are the tasks waiting at the barrier, `round` is how many meetings have been completed, and
   `arrivals` and `departures` count each task's calls and their ends; `answers` are the item values of released tasks.
   */
  datatype State = State(g: Group, inside: set<nat>, round: nat, arrivals: seq<nat>, departures: seq<nat>, answers: map<TaskId, Word>)

  function And(a: Word, b: Word): Word { a & b }

  /** No bit in common. */
  predicate Apart(a: Word, b: Word) { a & b == 0 }

  predicate Within(a: Word, b: Word) { AndNot(a, b) == 0 }

  /** The bits of the tasks of `s` among the first `k`. */
  function Union(b: seq<Word>, s: set<nat>, k: nat): Word
    requires k <= |b|
  {
    if k == 0 then 0 else Or(Union(b, s, k - 1), if k - 1 in s then b[k - 1] else 0)
  }

  function Everyone(n: nat): (s: set<nat>)
    ensures forall i: int :: i in s <==> 0 <= i < n
  {
    if n == 0 then {} else Everyone(n - 1) + {n - 1}
  }

  /** The bits a meeting waits for. */
  function Whole(b: seq<Word>): Word {
    Union(b, Everyone(|b|), |b|)
  }

  ghost predicate OwnBits(b: seq<Word>) {
    && |b| > 0 && (forall i :: 0 <= i < |b| ==> b[i] != 0 && Plain(b[i]))
    && forall i, j :: 0 <= i < j < |b| ==> Apart(b[i], b[j])
  }

  // ------------------------------------------------------------------ bits

  lemma OrZero(a: Word)
    ensures Or(a, 0) == a && Or(0, a) == a
  {
  }

  lemma ApartOr(a: Word, b: Word, c: Word)
    ensures Apart(a, c) && Apart(b, c) ==> Apart(Or(a, b), c)
    ensures Within(a, c) && Within(b, c) ==> Within(Or(a, b), c)
    ensures Apart(a, c) == Apart(c, a)
  {
  }

  lemma ApartZero(c: Word)
    ensures Apart(0, c) && Within(0, c) && Apart(c, 0)
  {
  }

  lemma WithinOr(a: Word, b: Word)
    ensures Within(a, Or(a, b)) && Within(b, Or(a, b))
  {
  }

  lemma WithinTrans(a: Word, b: Word, c: Word)
    requires Within(a, b) && Within(b, c)
    ensures Within(a, c)
  {
  }

  lemma OrSwap(a: Word, b: Word, c: Word)
    ensures Or(Or(a, b), c) == Or(Or(a, c), b) && Or(a, Or(b, c)) == Or(Or(a, b), c) && Or(a, b) == Or(b, a) && Or(a, a) == a
  {
  }

  lemma {:induction false} UnionAdd(b: seq<Word>, s: set<nat>, t: nat, k: nat)
    requires k <= |b|
    ensures Union(b, s + {t}, k) == if t < k then Or(Union(b, s, k), b[t]) else Union(b, s, k)
  {
    hide Or;
    if k > 0 {
      UnionAdd(b, s, t, k - 1);
      var rest, mine := Union(b, s, k - 1), if k - 1 in s then b[k - 1] else 0;
      if t < k - 1 {
        OrSwap(rest, b[t], mine);
      } else if t == k - 1 {
        OrZero(rest);
        OrSwap(rest, b[t], b[t]);
        OrSwap(b[t], b[t], b[t]);
      }
    }
  }

  lemma {:induction false} UnionApart(b: seq<Word>, s: set<nat>, t: nat, k: nat)
    requires OwnBits(b) && k <= |b| && t < |b| && t !in s
    ensures Apart(Union(b, s, k), b[t])
  {
    hide Or, Apart;
    if k == 0 {
      ApartZero(b[t]);
    } else {
      UnionApart(b, s, t, k - 1);
      var mine := if k - 1 in s then b[k - 1] else 0;
      ApartZero(b[t]);
      if k - 1 in s {
        if k - 1 < t { assert Apart(b[k - 1], b[t]); } else { assert Apart(b[t], b[k - 1]); }
        ApartOr(b[k - 1], b[k - 1], b[t]);
      }
      ApartOr(Union(b, s, k - 1), mine, b[t]);
    }
  }

  lemma {:induction false} UnionPart(b: seq<Word>, s: set<nat>, t: nat, k: nat)
    requires k <= |b| && t < k && t in s
    ensures Within(b[t], Union(b, s, k))
  {
    hide Or, Within;
    var rest, mine := Union(b, s, k - 1), if k - 1 in s then b[k - 1] else 0;
    WithinOr(rest, mine);
    if t < k - 1 {
      UnionPart(b, s, t, k - 1);
      WithinTrans(b[t], rest, Or(rest, mine));
    }
  }

  lemma {:induction false} UnionPlain(b: seq<Word>, s: set<nat>, k: nat)
    requires OwnBits(b) && k <= |b|
    ensures Plain(Union(b, s, k))
  {
    hide Or, Plain, Apart;
    PlainOr(0, 0);
    if k > 0 {
      UnionPlain(b, s, k - 1);
      PlainOr(Union(b, s, k - 1), if k - 1 in s then b[k - 1] else 0);
    }
  }

  lemma PlainOr(a: Word, b: Word)
    ensures Plain(a) && Plain(b) ==> Plain(Or(a, b))
    ensures Plain(0)
  {
  }

  /** The snapshot at an arrival holds, of W, the bits of those inside and of the newcomer. */
  lemma MaskOr(bits: Word, mine: Word, W: Word)
    requires Within(mine, W)
    ensures And(Or(bits, mine), W) == Or(And(bits, W), mine)
  {
  }

  lemma MaskedAll(bits: Word, W: Word)
    ensures HasAll(bits, W) <==> And(bits, W) == W
  {
  }

  lemma MissingBit(W: Word, part: Word, bit: Word)
    requires Within(bit, W) && bit != 0 && Apart(part, bit)
    ensures part != W
  {
  }

  lemma Distributes(a: Word, b: Word, c: Word)
    ensures And(Or(a, b), c) == Or(And(a, c), And(b, c))
  {
  }

  lemma MaskSetApart(bits: Word, x: Word, W: Word)
    requires Apart(x, W)
    ensures And(Or(bits, x), W) == And(bits, W)
  {
    Distributes(bits, x, W);
    OrZero(And(bits, W));
  }

  lemma MaskClearApart(bits: Word, x: Word, W: Word)
    requires Apart(x, W)
    ensures And(AndNot(bits, x), W) == And(bits, W)
  {
    MaskedNot(bits, x, W);
  }

  lemma MaskedNot(bits: Word, x: Word, W: Word)
    requires x & W == 0
    ensures bits & !x & W == bits & W
  {
  }

  lemma ApartWithin(mine: Word, W: Word, x: Word)
    requires Within(mine, W) && Apart(x, W)
    ensures And(mine, x) == 0
  {
  }

  lemma OthersUnmoved(bits: Word, mine: Word, W: Word, x: Word)
    requires Within(mine, W) && Apart(x, W)
    ensures HasAll(Or(bits, mine), x) == HasAll(bits, x) && HasAny(Or(bits, mine), x) == HasAny(bits, x)
  {
    hide Or, Within, Apart;
    ApartWithin(mine, W, x);
    Distributes(bits, mine, x);
    OrZero(And(bits, x));
  }

  lemma ClearedWhole(bits: Word, W: Word)
    ensures And(AndNot(bits, W), W) == 0
  {
  }

  // ------------------------------------------------------------------ the invariant

  function Rendezvous(t: nat, W: Word): Waiter {
    Waiter(t, Condition(W, true, true))
  }

  /** On the list, barrier tasks wait for W; everyone else for other bits. */
  ghost predicate ListOk(g: Group, inside: set<nat>, n: nat, W: Word) {
    && (forall w :: w in g.waiting && w.task < n ==> w.task in inside && w == Rendezvous(w.task, W))
    && (forall w :: w in g.waiting && w.task >= n ==> Apart(EventBits(w.value), W))
    && (forall t :: t in inside ==> t < n && Rendezvous(t, W) in g.waiting)
  }

  /** What task `t` has done so far. */
  ghost predicate TaskOk(s: State, t: nat, W: Word)
    requires t < |s.arrivals| == |s.departures|
  {
    && s.departures[t] <= s.arrivals[t] <= s.departures[t] + 1
    && s.arrivals[t] == (if t in s.inside then s.round + 1 else s.round)
    && (t in s.inside ==> s.departures[t] == s.round)
    && (t !in s.inside && s.departures[t] < s.arrivals[t] ==>
          t in s.answers && HasAll(Returned(s.answers[t]), W) && HasAny(s.answers[t], UNBLOCKED_DUE_TO_BIT_SET))
  }

  /** The group's bits of W are those of the tasks inside, which are never all of them. */
  ghost predicate GroupOk(b: seq<Word>, g: Group, inside: set<nat>) {
    && NobodyOverlooked(g) && Plain(g.bits)
    && ListOk(g, inside, |b|, Whole(b))
    && And(g.bits, Whole(b)) == Union(b, inside, |b|)
    && (exists t :: 0 <= t < |b| && t !in inside)
  }

  ghost predicate Inv(b: seq<Word>, s: State) {
    && OwnBits(b) && |s.arrivals| == |s.departures| == |b|
    && GroupOk(b, s.g, s.inside)
    && (forall t :: 0 <= t < |b| ==> TaskOk(s, t, Whole(b)))
  }

  /** Nobody returns from a round before all tasks have arrived in it. */
  lemma NobodyReturnsEarly(b: seq<Word>, s: State, t: nat, u: nat)
    requires Inv(b, s) && t < |b| && u < |b|
    ensures s.departures[t] <= s.arrivals[u]
  {
    assert TaskOk(s, t, Whole(b)) && TaskOk(s, u, Whole(b));
  }

  // ------------------------------------------------------------------ steps

  /** Task `t`, back from its last call, arrives: it either waits, or completes the round and returns at once. */
  ghost predicate Arrive(b: seq<Word>, s: State, t: nat, ticks: nat, r: State)
    requires |s.arrivals| == |s.departures| == |b|
  {
    && t < |b| && t !in s.inside && s.arrivals[t] == s.departures[t] && ticks > 0
    && var (out, g) := Sync(s.g, t, b[t], Whole(b), ticks);
       var answers := Answered(s.answers, Released(s.g.waiting, Or(s.g.bits, b[t])), Answer(Or(s.g.bits, b[t])));
       if out.Done?
       then r == State(g, {}, s.round + 1, s.arrivals[t := s.arrivals[t] + 1], s.departures[t := s.departures[t] + 1], answers)
       else r == State(g, s.inside + {t}, s.round, s.arrivals[t := s.arrivals[t] + 1], s.departures, answers)
  }

  /** A task released from the barrier runs again; its call returns what its item holds. */
  ghost predicate Return(b: seq<Word>, s: State, t: nat, value: Word, r: State)
    requires |s.arrivals| == |s.departures| == |b|
  {
    && t < |b| && t !in s.inside && s.departures[t] < s.arrivals[t] && t in s.answers && value == Returned(s.answers[t])
    && r == s.(departures := s.departures[t := s.departures[t] + 1])
  }

  /** The calls of other tasks, on other bits. */
  predicate Elsewhere(op: Op, n: nat, W: Word) {
    match op
    case Set(x) => Apart(x, W)
    case Clear(x) => Apart(x, W)
    case WaitFor(t, x, _, _, _) => t >= n && Apart(x, W)
    case TimedOut(x, _, _) => Apart(x, W)
    case Gone(t) => t >= n
    case Meet(t, x, y, _) => t >= n && Apart(x, W) && Apart(y, W)
  }

  /** What an operation's walk of the list sets the bits to, if it walks it. */
  function Walk(g: Group, op: Op): seq<Waiter> {
    match op
    case Set(x) => Released(g.waiting, Or(g.bits, x))
    case Meet(_, x, _, _) => Released(g.waiting, Or(g.bits, x))
    case _ => []
  }

  function Told(g: Group, op: Op): Word {
    match op
    case Set(x) => Answer(Or(g.bits, x))
    case Meet(_, x, _, _) => Answer(Or(g.bits, x))
    case _ => 0
  }

  ghost predicate Other(b: seq<Word>, s: State, op: Op, r: State) {
    && Allowed(op) && Elsewhere(op, |b|, Whole(b))
    && r == s.(g := Apply(s.g, op), answers := Answered(s.answers, Walk(s.g, op), Told(s.g, op)))
  }

  // ------------------------------------------------------------------ arrival

  /** What the newcomer sees: its own bit and those of the tasks inside, and so all of W exactly if it is the last. */
  lemma ArrivalSees(b: seq<Word>, g: Group, inside: set<nat>, t: nat)
    requires OwnBits(b) && GroupOk(b, g, inside) && t < |b| && t !in inside
    ensures var W, snapshot := Whole(b), Or(g.bits, b[t]);
      && Within(b[t], W) && And(snapshot, W) == Union(b, inside + {t}, |b|)
      && (HasAll(snapshot, W) <==> forall u :: 0 <= u < |b| ==> u in inside + {t})
  {
    hide Or, And, HasAll, Apart, Within, Plain, Union, NobodyOverlooked, ListOk;
    var W, n, inside' := Whole(b), |b|, inside + {t};
    UnionPart(b, Everyone(n), t, n);
    MaskOr(g.bits, b[t], W);
    UnionAdd(b, inside, t, n);
    MaskedAll(Or(g.bits, b[t]), W);
    if forall u :: 0 <= u < n ==> u in inside' {
      UnionSame(b, inside', Everyone(n), n);
    } else {
      var u :| 0 <= u < n && u !in inside';
      NotWhole(b, inside', u);
    }
  }

  lemma NotWhole(b: seq<Word>, inside: set<nat>, u: nat)
    requires OwnBits(b) && u < |b| && u !in inside
    ensures Union(b, inside, |b|) != Whole(b)
  {
    hide Or, Apart, Within, Plain, Union;
    UnionApart(b, inside, u, |b|);
    UnionPart(b, Everyone(|b|), u, |b|);
    MissingBit(Whole(b), Union(b, inside, |b|), b[u]);
  }

  lemma {:induction false} UnionSame(b: seq<Word>, s: set<nat>, s': set<nat>, k: nat)
    requires k <= |b| && forall i :: 0 <= i < k ==> (i in s <==> i in s')
    ensures Union(b, s, k) == Union(b, s', k)
  {
    hide Or;
    if k > 0 { UnionSame(b, s, s', k - 1); }
  }

  /** A snapshot that adds only bits of W releases the tasks at the barrier, if it has all of W, and nobody else. */
  lemma WhoIsReleased(b: seq<Word>, g: Group, inside: set<nat>, mine: Word, w: Waiter)
    requires OwnBits(b) && GroupOk(b, g, inside) && Within(mine, Whole(b)) && w in g.waiting
    ensures Satisfied(w, Or(g.bits, mine)) <==> w.task < |b| && HasAll(Or(g.bits, mine), Whole(b))
  {
    hide Or, And, HasAll, HasAny, Apart, Within, Plain, Union, Condition, EventBits;
    var i :| 0 <= i < |g.waiting| && g.waiting[i] == w;
    assert !Satisfied(g.waiting[i], g.bits);
    if w.task < |b| {
      UnionPlain(b, Everyone(|b|), |b|);
      ConditionRoundTrip(Whole(b), true, true);
    } else {
      OthersUnmoved(g.bits, mine, Whole(b), EventBits(w.value));
    }
  }

  lemma {:induction false} AllKept(ws: seq<Waiter>, snapshot: Word)
    requires forall w :: w in ws ==> !Satisfied(w, snapshot)
    ensures Kept(ws, snapshot) == ws && Released(ws, snapshot) == []
  {
    hide Satisfied;
    if ws != [] {
      assert forall w :: w in ws[1..] ==> w in ws;
      AllKept(ws[1..], snapshot);
    }
  }

  lemma PlainKept(bits: Word, x: Word)
    requires Plain(bits)
    ensures Plain(AndNot(bits, x)) && AndNot(bits, 0) == bits
  {
  }

  lemma UnionNone(b: seq<Word>, k: nat)
    requires k <= |b|
    ensures Union(b, {}, k) == 0
  {
    hide Or;
    OrZero(0);
    if k > 0 { UnionNone(b, k - 1); }
  }

  /** A group whose list has lost the tasks at the barrier, and whose bits of W are clear, is ready for a new round. */
  lemma EmptyRound(b: seq<Word>, r: Group)
    requires |b| > 0 && NobodyOverlooked(r) && Plain(r.bits) && And(r.bits, Whole(b)) == 0
    requires forall w :: w in r.waiting ==> w.task >= |b| && Apart(EventBits(w.value), Whole(b))
    ensures GroupOk(b, r, {})
  {
    hide And, Apart, Plain, Union, EventBits, NobodyOverlooked;
    UnionNone(b, |b|);
    var nobody: set<nat> := {};
    assert 0 !in nobody;
  }

  /** Those at the barrier leave the list; the others, waiting for bits outside W, stay. */
  lemma WhoStays(b: seq<Word>, g: Group, inside: set<nat>, t: nat)
    requires OwnBits(b) && GroupOk(b, g, inside) && t < |b|
    requires HasAll(Or(g.bits, b[t]), Whole(b)) && Within(b[t], Whole(b))
    ensures forall w :: w in Kept(g.waiting, Or(g.bits, b[t])) ==> w.task >= |b| && Apart(EventBits(w.value), Whole(b))
    ensures forall u :: u in inside ==> Rendezvous(u, Whole(b)) in Released(g.waiting, Or(g.bits, b[t]))
  {
    hide Or, And, HasAll, Apart, Within, Plain, Union, EventBits, Condition, Satisfied, NobodyOverlooked, Released, Kept;
    forall w | w in g.waiting ensures Satisfied(w, Or(g.bits, b[t])) <==> w.task < |b| {
      WhoIsReleased(b, g, inside, b[t], w);
    }
  }

  /** The last to arrive: the round is complete, everybody waiting is released, and W is clear again. */
  lemma LastArrival(b: seq<Word>, g: Group, inside: set<nat>, t: nat, ticks: nat)
    requires OwnBits(b) && GroupOk(b, g, inside) && t < |b| && t !in inside && ticks > 0
    requires HasAll(Or(g.bits, b[t]), Whole(b))
    ensures var (out, r) := Sync(g, t, b[t], Whole(b), ticks);
      && out == Done(Or(g.bits, b[t])) && GroupOk(b, r, {}) && And(r.bits, Whole(b)) == 0
      && forall u :: u in inside ==> Rendezvous(u, Whole(b)) in Released(g.waiting, Or(g.bits, b[t]))
  {
    hide Or, And, AndNot, HasAll, HasAny, Apart, Within, Plain, Union, Condition, EventBits, Satisfied, NobodyOverlooked, ToClear,
      Released, Kept, ListOk;
    var W, snapshot := Whole(b), Or(g.bits, b[t]);
    var (out, r) := Sync(g, t, b[t], W, ticks);
    ArrivalSees(b, g, inside, t);
    UnionPlain(b, Everyone(|b|), |b|);
    SyncKeeps(g, t, b[t], W, ticks);
    WhoStays(b, g, inside, t);
    PlainOr(g.bits, b[t]);
    var clear := ToClear(Released(g.waiting, snapshot));
    PlainKept(snapshot, clear);
    PlainKept(AndNot(snapshot, clear), W);
    ClearedWhole(AndNot(snapshot, clear), W);
    EmptyRound(b, r);
  }

  /** Any other: it waits with those already inside, and nobody is released. */
  lemma EarlyArrival(b: seq<Word>, g: Group, inside: set<nat>, t: nat, ticks: nat)
    requires OwnBits(b) && GroupOk(b, g, inside) && t < |b| && t !in inside && ticks > 0
    requires !HasAll(Or(g.bits, b[t]), Whole(b))
    ensures var (out, r) := Sync(g, t, b[t], Whole(b), ticks);
      out == Blocked && GroupOk(b, r, inside + {t}) && Released(g.waiting, Or(g.bits, b[t])) == []
  {
    hide Or, And, AndNot, HasAll, HasAny, Apart, Within, Plain, Union, Condition, EventBits, Satisfied, NobodyOverlooked;
    var W, snapshot := Whole(b), Or(g.bits, b[t]);
    var (out, r) := Sync(g, t, b[t], W, ticks);
    ArrivalSees(b, g, inside, t);
    UnionPlain(b, Everyone(|b|), |b|);
    SyncKeeps(g, t, b[t], W, ticks);
    forall w | w in g.waiting ensures !Satisfied(w, snapshot) {
      WhoIsReleased(b, g, inside, b[t], w);
    }
    AllKept(g.waiting, snapshot);
    PlainOr(g.bits, b[t]);
    PlainKept(snapshot, 0);
    assert r.waiting == g.waiting + [Rendezvous(t, W)];
    JoinList(g, r, inside, t, |b|, W);
    var u :| 0 <= u < |b| && u !in inside + {t};
  }

  lemma JoinList(g: Group, r: Group, inside: set<nat>, t: nat, n: nat, W: Word)
    requires ListOk(g, inside, n, W) && t < n && r.waiting == g.waiting + [Rendezvous(t, W)]
    ensures ListOk(r, inside + {t}, n, W)
  {
    hide Apart, EventBits, Condition;
    assert Rendezvous(t, W) in r.waiting;
    forall u | u in inside + {t} ensures Rendezvous(u, W) in r.waiting {
    }
  }

  /** An answer to a task at the barrier says it was released, and holds all of W. */
  lemma AnswerHoldsWhole(snapshot: Word, W: Word)
    requires Plain(snapshot) && HasAll(snapshot, W)
    ensures HasAll(Returned(Answer(snapshot)), W) && HasAny(Answer(snapshot), UNBLOCKED_DUE_TO_BIT_SET)
  {
    hide Plain, HasAll, HasAny, Answer, Returned;
    AnswerRoundTrip(snapshot);
    AnswerFlag(snapshot);
  }

  lemma AnswerFlag(snapshot: Word)
    ensures HasAny(Answer(snapshot), UNBLOCKED_DUE_TO_BIT_SET)
  {
  }

  lemma ReleasedAnswered(answers: map<TaskId, Word>, rs: seq<Waiter>, w: Waiter, value: Word)
    requires w in rs
    ensures w.task in Answered(answers, rs, value) && Answered(answers, rs, value)[w.task] == value
  {
    hide Answered;
    var i :| 0 <= i < |rs| && rs[i] == w;
    AnsweredExactly(answers, rs, value, w.task);
  }

  lemma ArriveKeeps(b: seq<Word>, s: State, t: nat, ticks: nat, r: State)
    requires Inv(b, s) && Arrive(b, s, t, ticks, r)
    ensures Inv(b, r)
  {
    hide Or, HasAll, HasAny, Plain, Union, Condition, GroupOk, Answer, Returned, Answered, Released, Sync;
    var W, snapshot := Whole(b), Or(s.g.bits, b[t]);
    ArrivalPlain(b, s, t);
    assert TaskOk(s, t, W);
    if HasAll(snapshot, W) {
      LastArrival(b, s.g, s.inside, t, ticks);
      ArrivalSees(b, s.g, s.inside, t);
      AnswerHoldsWhole(snapshot, W);
      forall u | 0 <= u < |b| ensures TaskOk(r, u, W) {
        assert TaskOk(s, u, W);
        if u != t { ReleasedAnswered(s.answers, Released(s.g.waiting, snapshot), Rendezvous(u, W), Answer(snapshot)); }
      }
    } else {
      EarlyArrival(b, s.g, s.inside, t, ticks);
      AnsweredNone(s.answers, Answer(snapshot));
      forall u | 0 <= u < |b| ensures TaskOk(r, u, W) {
        assert TaskOk(s, u, W);
      }
    }
  }

  lemma ArrivalPlain(b: seq<Word>, s: State, t: nat)
    requires Inv(b, s) && t < |b|
    ensures Plain(Or(s.g.bits, b[t]))
  {
    hide Or, Plain, Apart;
    PlainOr(s.g.bits, b[t]);
  }

  lemma ReturnKeeps(b: seq<Word>, s: State, t: nat, value: Word, r: State)
    requires Inv(b, s) && Return(b, s, t, value, r)
    ensures Inv(b, r) && HasAll(value, Whole(b))
  {
    hide HasAll, HasAny, Union, GroupOk, Returned;
    assert TaskOk(s, t, Whole(b));
    forall u | 0 <= u < |b| ensures TaskOk(r, u, Whole(b)) {
      assert TaskOk(s, u, Whole(b));
    }
  }

  // ------------------------------------------------------------------ the other bits

  lemma {:induction false} ToClearApart(rs: seq<Waiter>, W: Word)
    requires forall w :: w in rs ==> Apart(EventBits(w.value), W)
    ensures Apart(ToClear(rs), W)
  {
    hide Apart, Or, EventBits, ClearsOnExit;
    ApartZero(W);
    if rs != [] {
      assert rs[0] in rs && forall w :: w in rs[1..] ==> w in rs;
      ToClearApart(rs[1..], W);
      ApartOr(Clears(rs[0]), ToClear(rs[1..]), W);
    }
  }

  /** A snapshot that adds bits outside W releases nobody at the barrier. */
  lemma BarrierUnmoved(b: seq<Word>, g: Group, inside: set<nat>, x: Word, w: Waiter)
    requires OwnBits(b) && GroupOk(b, g, inside) && Apart(x, Whole(b)) && w in g.waiting && w.task < |b|
    ensures !Satisfied(w, Or(g.bits, x))
  {
    hide Or, And, HasAll, HasAny, Apart, Plain, Union, Condition, EventBits, NobodyOverlooked;
    var W := Whole(b);
    var u :| 0 <= u < |b| && u !in inside;
    NotWhole(b, inside, u);
    MaskSetApart(g.bits, x, W);
    MaskedAll(Or(g.bits, x), W);
    UnionPlain(b, Everyone(|b|), |b|);
    ConditionRoundTrip(W, true, true);
  }

  lemma SetElsewhere(b: seq<Word>, g: Group, inside: set<nat>, x: Word)
    requires OwnBits(b) && GroupOk(b, g, inside) && Apart(x, Whole(b)) && Plain(x)
    ensures GroupOk(b, SetBits(g, x), inside)
    ensures forall w :: w in Released(g.waiting, Or(g.bits, x)) ==> w.task >= |b|
  {
    hide Or, And, AndNot, HasAll, HasAny, Apart, Plain, Union, Condition, EventBits, NobodyOverlooked, Satisfied, ToClear, Released, Kept;
    var W, snapshot := Whole(b), Or(g.bits, x);
    var rs := Released(g.waiting, snapshot);
    SetBitsKeeps(g, x);
    forall w | w in g.waiting && w.task < |b| ensures !Satisfied(w, snapshot) {
      BarrierUnmoved(b, g, inside, x, w);
    }
    ToClearApart(rs, W);
    MaskSetApart(g.bits, x, W);
    MaskClearApart(snapshot, ToClear(rs), W);
    PlainOr(g.bits, x);
    PlainKept(snapshot, ToClear(rs));
  }

  lemma ClearElsewhere(b: seq<Word>, g: Group, inside: set<nat>, x: Word)
    requires OwnBits(b) && GroupOk(b, g, inside) && Apart(x, Whole(b))
    ensures GroupOk(b, ClearBits(g, x), inside)
  {
    hide And, AndNot, Apart, Plain, Union, Condition, EventBits, NobodyOverlooked;
    ClearBitsKeeps(g, x);
    MaskClearApart(g.bits, x, Whole(b));
    PlainKept(g.bits, x);
  }

  lemma JoinElsewhere(b: seq<Word>, g: Group, inside: set<nat>, t: TaskId, x: Word, clear: bool, all: bool)
    requires OwnBits(b) && GroupOk(b, g, inside) && t >= |b| && Plain(x) && Apart(x, Whole(b)) && !ConditionMet(g.bits, x, all)
    ensures GroupOk(b, g.(waiting := g.waiting + [Waiter(t, Condition(x, clear, all))]), inside)
  {
    hide And, Apart, Plain, Union, Condition, EventBits, WaitsForAll, ConditionMet, ClearsOnExit;
    ConditionRoundTrip(x, clear, all);
    hide NobodyOverlooked;
    JoinKeeps(g, Waiter(t, Condition(x, clear, all)));
  }

  lemma GoneElsewhere(b: seq<Word>, g: Group, inside: set<nat>, t: TaskId)
    requires OwnBits(b) && GroupOk(b, g, inside) && t >= |b|
    ensures GroupOk(b, Leave(g, t), inside)
  {
    hide And, Apart, Plain, Union, Condition, EventBits, NobodyOverlooked;
    LeaveKeeps(g, t);
    LeaveBits(g, t);
  }

  lemma WaitElsewhere(b: seq<Word>, g: Group, inside: set<nat>, t: TaskId, x: Word, clear: bool, all: bool, ticks: nat)
    requires OwnBits(b) && GroupOk(b, g, inside) && t >= |b| && Plain(x) && Apart(x, Whole(b))
    ensures GroupOk(b, WaitBits(g, t, x, clear, all, ticks).1, inside)
  {
    hide GroupOk, Apart, Plain, ConditionMet, Condition, ClearBits;
    ClearElsewhere(b, g, inside, x);
    if !ConditionMet(g.bits, x, all) { JoinElsewhere(b, g, inside, t, x, clear, all); }
  }

  lemma MeetElsewhere(b: seq<Word>, g: Group, inside: set<nat>, t: TaskId, x: Word, y: Word, ticks: nat)
    requires OwnBits(b) && GroupOk(b, g, inside) && t >= |b| && Plain(x) && Plain(y) && Apart(x, Whole(b)) && Apart(y, Whole(b))
    ensures GroupOk(b, Sync(g, t, x, y, ticks).1, inside)
  {
    hide GroupOk, Apart, Plain, HasAll, Or, SetBits, Condition, ClearBits;
    var s := SetBits(g, x);
    SetElsewhere(b, g, inside, x);
    ClearElsewhere(b, s, inside, y);
    if !HasAll(Or(g.bits, x), y) {
      StillMissing(g, x, y);
      JoinElsewhere(b, s, inside, t, y, true, true);
    }
  }

  lemma GroupElsewhere(b: seq<Word>, g: Group, inside: set<nat>, op: Op)
    requires OwnBits(b) && GroupOk(b, g, inside) && Allowed(op) && Elsewhere(op, |b|, Whole(b))
    ensures GroupOk(b, Apply(g, op), inside)
    ensures forall w :: w in Walk(g, op) ==> w.task >= |b|
  {
    hide GroupOk, Apart, Plain, Or, SetBits, ClearBits, WaitBits, Sync, Leave, ConditionMet, Released;
    match op
    case Set(x) => SetElsewhere(b, g, inside, x);
    case Clear(x) => ClearElsewhere(b, g, inside, x);
    case WaitFor(t, x, clear, all, ticks) => WaitElsewhere(b, g, inside, t, x, clear, all, ticks);
    case TimedOut(x, clear, all) => ClearElsewhere(b, g, inside, x);
    case Gone(t) => GoneElsewhere(b, g, inside, t);
    case Meet(t, x, y, ticks) =>
      SetElsewhere(b, g, inside, x);
      MeetElsewhere(b, g, inside, t, x, y, ticks);
  }

  lemma OtherKeeps(b: seq<Word>, s: State, op: Op, r: State)
    requires Inv(b, s) && Other(b, s, op, r)
    ensures Inv(b, r)
  {
    hide GroupOk, HasAll, HasAny, Returned, Answered, Apply, Walk, Told, Union;
    GroupElsewhere(b, s.g, s.inside, op);
    forall u | 0 <= u < |b| ensures TaskOk(r, u, Whole(b)) {
      assert TaskOk(s, u, Whole(b));
      AnsweredOthers(s.answers, Walk(s.g, op), Told(s.g, op), |b|, u);
    }
  }

  lemma AnsweredOthers(answers: map<TaskId, Word>, rs: seq<Waiter>, value: Word, n: nat, u: nat)
    requires u < n && forall w :: w in rs ==> w.task >= n
    ensures u in answers <==> u in Answered(answers, rs, value)
    ensures u in answers ==> Answered(answers, rs, value)[u] == answers[u]
  {
    hide Answered;
    AnsweredExactly(answers, rs, value, u);
    forall i | 0 <= i < |rs| ensures rs[i].task != u {
      assert rs[i] in rs;
    }
  }

  // ------------------------------------------------------------------ runs

  datatype Event = Arrives(t: nat, ticks: nat) | Returns(t: nat, value: Word) | Others(op: Op)

  ghost predicate Next(b: seq<Word>, s: State, e: Event, r: State) {
    |s.arrivals| == |s.departures| == |b| &&
    match e
    case Arrives(t, ticks) => Arrive(b, s, t, ticks, r)
    case Returns(t, v) => Return(b, s, t, v, r)
    case Others(op) => Other(b, s, op, r)
  }

  ghost predicate IsRun(b: seq<Word>, states: seq<State>, events: seq<Event>) {
    |states| == |events| + 1 && forall i :: 0 <= i < |events| ==> Next(b, states[i], events[i], states[i + 1])
  }

  lemma {:induction false} RunKeeps(b: seq<Word>, states: seq<State>, events: seq<Event>, k: nat)
    requires IsRun(b, states, events) && Inv(b, states[0]) && k < |states|
    ensures Inv(b, states[k])
  {
    hide Inv, Arrive, Return, Other;
    if k > 0 {
      RunKeeps(b, states, events, k - 1);
      assert Next(b, states[k - 1], events[k - 1], states[k]);
      match events[k - 1]
      case Arrives(t, ticks) => ArriveKeeps(b, states[k - 1], t, ticks, states[k]);
      case Returns(t, v) => ReturnKeeps(b, states[k - 1], t, v, states[k]);
      case Others(op) => OtherKeeps(b, states[k - 1], op, states[k]);
    }
  }

  /**
   Over every run: a call to the barrier returns only when every task has arrived in its round, and the value
   it returns, whether at once or after a wait, contains all of W.
   */
  lemma BarrierHolds(b: seq<Word>, states: seq<State>, events: seq<Event>, k: nat, t: nat, u: nat)
    requires IsRun(b, states, events) && Inv(b, states[0]) && k < |events| && t < |b| && u < |b|
    ensures |states[k + 1].arrivals| == |states[k + 1].departures| == |b| && states[k + 1].departures[t] <= states[k + 1].arrivals[u]
    ensures events[k].Returns? ==> HasAll(events[k].value, Whole(b))
  {
    hide Arrive, Return, Other, HasAll, TaskOk, GroupOk;
    RunKeeps(b, states, events, k);
    RunKeeps(b, states, events, k + 1);
    NobodyReturnsEarly(b, states[k + 1], t, u);
    assert Next(b, states[k], events[k], states[k + 1]);
    if events[k].Returns? { ReturnKeeps(b, states[k], events[k].t, events[k].value, states[k + 1]); }
  }

  /**
   A task that completes a round returns at once, with a value that contains W, and W is clear again before any
   released task can arrive for the next round; one that does not complete it waits.
   */
  lemma RoundCompletes(b: seq<Word>, s: State, t: nat, ticks: nat, r: State)
    requires Inv(b, s) && Arrive(b, s, t, ticks, r)
    ensures r.round == s.round + 1 <==> forall u :: 0 <= u < |b| ==> u in s.inside + {t}
    ensures r.round == s.round + 1 ==>
      && And(r.g.bits, Whole(b)) == 0 && r.inside == {} && r.departures[t] == r.arrivals[t]
      && Sync(s.g, t, b[t], Whole(b), ticks).0.Done? && HasAll(Sync(s.g, t, b[t], Whole(b), ticks).0.value, Whole(b))
    ensures r.round != s.round + 1 ==> t in r.inside && r.departures == s.departures
  {
    hide Or, And, HasAll, Plain, Union, Condition, GroupOk, Answer, Answered, Released, Sync;
    ArrivalSees(b, s.g, s.inside, t);
    if HasAll(Or(s.g.bits, b[t]), Whole(b)) {
      LastArrival(b, s.g, s.inside, t, ticks);
    } else {
      EarlyArrival(b, s.g, s.inside, t, ticks);
    }
  }

  /** Before the first meeting: nobody inside, and none of the bits of W set. */
  lemma StartInv(b: seq<Word>)
    requires OwnBits(b)
    ensures Inv(b, State(Group(0, []), {}, 0, seq(|b|, _ => 0), seq(|b|, _ => 0), map[]))
  {
    hide Or, Plain, Apart;
    UnionNone(b, |b|);
    PlainOr(0, 0);
    NobodyInEmpty();
    ZeroMask(Whole(b));
    assert 0 !in {};
  }

  lemma ZeroMask(W: Word)
    ensures And(0, W) == 0
  {
  }
}

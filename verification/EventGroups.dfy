/**
 Event groups (event_groups.c), with 32-bit ticks: 24 event bits, and a list of waiting tasks that each store
 the bits they wait for, with control bits, in their event item.
 */
module EventGroups {
  import opened Sequences

  type TaskId = nat
  type Word = bv32

  const CLEAR_ON_EXIT: Word := 0x0100_0000
  const UNBLOCKED_DUE_TO_BIT_SET: Word := 0x0200_0000
  const WAIT_FOR_ALL: Word := 0x0400_0000
  const CONTROL_BYTES: Word := 0xff00_0000

  /** A task on the waiting list and its item value. */
  datatype Waiter = Waiter(task: TaskId, value: Word)

  datatype Group = Group(bits: Word, waiting: seq<Waiter>)

  /** The C operators `a | b` and `a & ~b`, and the two tests on bits. */
  function Or(a: Word, b: Word): Word { a | b }

  function AndNot(a: Word, b: Word): Word { a & !b }

  predicate HasAll(bits: Word, waitFor: Word) { bits & waitFor == waitFor }

  predicate HasAny(bits: Word, waitFor: Word) { bits & waitFor != 0 }

  function EventBits(value: Word): Word { AndNot(value, CONTROL_BYTES) }

  /** Only event bits, no control bits: all that is ever set or waited for. */
  predicate Plain(bits: Word) { bits & CONTROL_BYTES == 0 }

  predicate ClearsOnExit(value: Word) { HasAny(value, CLEAR_ON_EXIT) }

  predicate WaitsForAll(value: Word) { HasAny(value, WAIT_FOR_ALL) }

  /** `prvTestWaitCondition`. */
  predicate ConditionMet(bits: Word, waitFor: Word, all: bool) {
    if all then HasAll(bits, waitFor) else HasAny(bits, waitFor)
  }

  /** The condition a waiter stored is met by these bits. */
  predicate Satisfied(w: Waiter, bits: Word) {
    ConditionMet(bits, EventBits(w.value), WaitsForAll(w.value))
  }

  /** In every reachable state no task waits for a condition its group's bits already meet. */
  ghost predicate NobodyOverlooked(g: Group) {
    forall i :: 0 <= i < |g.waiting| ==> !Satisfied(g.waiting[i], g.bits)
  }

  // ------------------------------------------------------------------ setting bits

  /** The waiters one snapshot of the bits satisfies, in list order. */
  function Released(ws: seq<Waiter>, snapshot: Word): (r: seq<Waiter>)
    ensures forall w :: w in r <==> w in ws && Satisfied(w, snapshot)
  {
    if ws == [] then []
    else if Satisfied(ws[0], snapshot) then [ws[0]] + Released(ws[1..], snapshot) else Released(ws[1..], snapshot)
  }

  function Kept(ws: seq<Waiter>, snapshot: Word): (r: seq<Waiter>)
    ensures forall w :: w in r <==> w in ws && !Satisfied(w, snapshot)
  {
    if ws == [] then []
    else if Satisfied(ws[0], snapshot) then Kept(ws[1..], snapshot) else [ws[0]] + Kept(ws[1..], snapshot)
  }

  /** The bits a released waiter has cleared: those it waited for, if it asked for that. */
  function Clears(w: Waiter): Word {
    if ClearsOnExit(w.value) then EventBits(w.value) else 0
  }

  /** The union of the bits that released clear-on-exit waiters waited for. */
  function ToClear(ws: seq<Waiter>): Word {
    if ws == [] then 0 else Or(Clears(ws[0]), ToClear(ws[1..]))
  }

  function SetBits(g: Group, set_: Word): Group {
    var snapshot := Or(g.bits, set_);
    Group(AndNot(snapshot, ToClear(Released(g.waiting, snapshot))), Kept(g.waiting, snapshot))
  }

  lemma AllOfFewer(bits: Word, clear: Word, value: Word)
    requires HasAll(AndNot(bits, clear), value)
    ensures HasAll(bits, value)
  {
  }

  lemma AnyOfFewer(bits: Word, clear: Word, value: Word)
    requires HasAny(AndNot(bits, clear), value)
    ensures HasAny(bits, value)
  {
  }

  /** Clearing bits satisfies nobody. */
  lemma ClearingSatisfiesNobody(w: Waiter, bits: Word, clear: Word)
    requires !Satisfied(w, bits)
    ensures !Satisfied(w, AndNot(bits, clear))
  {
    hide EventBits, WaitsForAll, HasAll, HasAny, AndNot;
    if Satisfied(w, AndNot(bits, clear)) {
      if WaitsForAll(w.value) {
        AllOfFewer(bits, clear, EventBits(w.value));
      } else {
        AnyOfFewer(bits, clear, EventBits(w.value));
      }
    }
  }

  lemma SetBitsKeeps(g: Group, set_: Word)
    ensures NobodyOverlooked(SetBits(g, set_))
  {
    hide Satisfied, ToClear, AndNot, Or;
    var snapshot := Or(g.bits, set_);
    var r := SetBits(g, set_);
    forall i | 0 <= i < |r.waiting| ensures !Satisfied(r.waiting[i], r.bits) {
      assert r.waiting[i] in r.waiting;
      ClearingSatisfiesNobody(r.waiting[i], snapshot, ToClear(Released(g.waiting, snapshot)));
    }
  }

  // ------------------------------------------------------------------ bit by bit

  /** One bit of the 32. */
  predicate OneBit(x: Word) { x != 0 && x & (x - 1) == 0 }

  /** The lowest bit of a word that is not 0. */
  lemma LowestBit(v: Word) returns (x: Word)
    requires v != 0
    ensures OneBit(x) && v & x == x
  {
    x := v & (!v + 1);
  }

  function Both(a: Word, b: Word): Word { a & b }

  lemma OneBitMeets(a: Word, b: Word, x: Word)
    requires OneBit(x)
    ensures HasAny(Or(a, b), x) <==> HasAny(a, x) || HasAny(b, x)
    ensures HasAny(AndNot(a, b), x) <==> HasAny(a, x) && !HasAny(b, x)
    ensures HasAny(Both(a, b), x) <==> HasAny(a, x) && HasAny(b, x)
  {
    hide OneBit, HasAny, Or, AndNot, Both;
    MeetsOr(a, b, x);
    MeetsAndNot(a, b, x);
    MeetsBoth(a, b, x);
  }

  /** A word has one bit either wholly or not at all. */
  lemma WholeOrNot(a: Word, x: Word)
    requires OneBit(x)
    ensures x != 0 && (a & x == 0 || a & x == x)
  {
  }

  lemma MeetsOr(a: Word, b: Word, x: Word)
    ensures HasAny(Or(a, b), x) <==> HasAny(a, x) || HasAny(b, x)
  {
    assert (a | b) & x == (a & x) | (b & x);
  }

  lemma MeetsAndNot(a: Word, b: Word, x: Word)
    requires OneBit(x)
    ensures HasAny(AndNot(a, b), x) <==> HasAny(a, x) && !HasAny(b, x)
  {
    WholeOrNot(a, x);
    WholeOrNot(b, x);
    WholeAndNot(a, b, x);
  }

  lemma MeetsBoth(a: Word, b: Word, x: Word)
    requires OneBit(x)
    ensures HasAny(Both(a, b), x) <==> HasAny(a, x) && HasAny(b, x)
  {
    WholeOrNot(a, x);
    WholeOrNot(b, x);
    WholeBoth(a, b, x);
  }

  lemma WholeAndNot(a: Word, b: Word, x: Word)
    requires x != 0 && (a & x == 0 || a & x == x) && (b & x == 0 || b & x == x)
    ensures (a & !b) & x != 0 <==> a & x != 0 && b & x == 0
  {
  }

  lemma WholeBoth(a: Word, b: Word, x: Word)
    requires x != 0 && (a & x == 0 || a & x == x) && (b & x == 0 || b & x == x)
    ensures (a & b) & x != 0 <==> a & x != 0 && b & x != 0
  {
  }

  /** What the two tests mean: a condition is met when all of the bits, or when one of them, is set. */
  lemma ConditionMeans(bits: Word, waitFor: Word, all: bool)
    ensures all ==> (ConditionMet(bits, waitFor, all) <==> forall x :: OneBit(x) && HasAny(waitFor, x) ==> HasAny(bits, x))
    ensures !all ==> (ConditionMet(bits, waitFor, all) <==> exists x :: OneBit(x) && HasAny(waitFor, x) && HasAny(bits, x))
  {
    hide OneBit, HasAny, Or, AndNot;
    if all {
      AllMeans(bits, waitFor);
    } else {
      AnyMeans(bits, waitFor);
    }
  }

  lemma AllMeans(bits: Word, waitFor: Word)
    ensures HasAll(bits, waitFor) <==> forall x :: OneBit(x) && HasAny(waitFor, x) ==> HasAny(bits, x)
  {
    hide OneBit, Or, AndNot, HasAny;
    if HasAll(bits, waitFor) {
      forall x | OneBit(x) && HasAny(waitFor, x) ensures HasAny(bits, x) {
        OneBitMeets(bits, waitFor, x);
      }
    } else {
      MissingBits(bits, waitFor);
      var x := LowestBit(AndNot(waitFor, bits));
      PartOf(AndNot(waitFor, bits), x);
      OneBitMeets(waitFor, bits, x);
    }
  }

  lemma AnyMeans(bits: Word, waitFor: Word)
    ensures HasAny(bits, waitFor) <==> exists x :: OneBit(x) && HasAny(waitFor, x) && HasAny(bits, x)
  {
    hide OneBit, Or, AndNot;
    if HasAny(bits, waitFor) {
      var x := LowestBit(Both(bits, waitFor));
      PartOf(Both(bits, waitFor), x);
      OneBitMeets(bits, waitFor, x);
    }
    if x :| OneBit(x) && HasAny(waitFor, x) && HasAny(bits, x) {
      OneBitMeets(bits, waitFor, x);
    }
  }

  lemma MissingBits(bits: Word, waitFor: Word)
    requires !HasAll(bits, waitFor)
    ensures AndNot(waitFor, bits) != 0
  {
  }

  lemma PartOf(v: Word, x: Word)
    requires OneBit(x) && v & x == x
    ensures HasAny(v, x)
  {
  }

  /** A released waiter has this bit cleared: it asked for the bits it waited for to be cleared, and this is one. */
  ghost predicate ClearedBy(w: Waiter, snapshot: Word, x: Word) {
    Satisfied(w, snapshot) && ClearsOnExit(w.value) && HasAny(EventBits(w.value), x)
  }

  lemma {:induction false} ToClearBit(ws: seq<Waiter>, x: Word)
    requires OneBit(x)
    ensures HasAny(ToClear(ws), x) <==> exists w :: w in ws && ClearsOnExit(w.value) && HasAny(EventBits(w.value), x)
  {
    hide OneBit, EventBits, ClearsOnExit, Or;
    if ws == [] {
      NoBit(x);
    } else {
      var w := ws[0];
      ToClearBit(ws[1..], x);
      OneBitMeets(Clears(w), ToClear(ws[1..]), x);
      NoBit(x);
      assert forall v :: v in ws <==> v == w || v in ws[1..];
    }
  }

  lemma NoBit(x: Word)
    ensures !HasAny(0, x)
  {
  }

  /**
   Bit by bit: after a call that sets bits, a bit is set exactly when it was set before or by the call, and no waiter
   that was released asked for it to be cleared.
   */
  lemma SetBitsLeaves(g: Group, set_: Word, x: Word)
    requires OneBit(x)
    ensures HasAny(SetBits(g, set_).bits, x) <==>
      (HasAny(g.bits, x) || HasAny(set_, x)) && !exists w :: w in g.waiting && ClearedBy(w, Or(g.bits, set_), x)
  {
    hide OneBit, Satisfied, EventBits, ClearsOnExit, Or, AndNot, HasAny, ToClear, Released, Kept;
    var snapshot := Or(g.bits, set_);
    var rs := Released(g.waiting, snapshot);
    OneBitMeets(g.bits, set_, x);
    OneBitMeets(snapshot, ToClear(rs), x);
    ToClearBit(rs, x);
    assert (exists w :: w in rs && ClearsOnExit(w.value) && HasAny(EventBits(w.value), x))
      <==> exists w :: w in g.waiting && ClearedBy(w, snapshot, x);
  }

  lemma {:induction false} NothingToClear(ws: seq<Waiter>)
    requires forall w :: w in ws ==> !ClearsOnExit(w.value)
    ensures ToClear(ws) == 0
  {
    hide ClearsOnExit, EventBits;
    if ws != [] {
      assert ws[0] in ws && forall w :: w in ws[1..] ==> w in ws;
      NothingToClear(ws[1..]);
    }
  }

  /** If no released waiter clears on exit, the bits left are the snapshot. */
  lemma NobodyClears(g: Group, set_: Word)
    requires forall w :: w in g.waiting && Satisfied(w, Or(g.bits, set_)) ==> !ClearsOnExit(w.value)
    ensures SetBits(g, set_).bits == Or(g.bits, set_)
  {
    hide Satisfied, ClearsOnExit, Released, Kept, ToClear, Or;
    NothingToClear(Released(g.waiting, Or(g.bits, set_)));
    ClearsNothing(Or(g.bits, set_));
  }

  lemma ClearsNothing(a: Word)
    ensures AndNot(a, 0) == a
  {
  }

  // ------------------------------------------------------------------ the other operations

  function ClearBits(g: Group, clear: Word): Group {
    g.(bits := AndNot(g.bits, clear))
  }

  lemma ClearBitsKeeps(g: Group, clear: Word)
    requires NobodyOverlooked(g)
    ensures NobodyOverlooked(ClearBits(g, clear))
  {
    hide Satisfied, AndNot;
    forall i | 0 <= i < |g.waiting| ensures !Satisfied(g.waiting[i], AndNot(g.bits, clear)) {
      ClearingSatisfiesNobody(g.waiting[i], g.bits, clear);
    }
  }

  /** The control bits of a wait. */
  function Control(clear: bool, all: bool): Word {
    if clear then (if all then Or(CLEAR_ON_EXIT, WAIT_FOR_ALL) else CLEAR_ON_EXIT) else (if all then WAIT_FOR_ALL else 0)
  }

  /** What a task that is going to block stores. */
  function Condition(waitFor: Word, clear: bool, all: bool): Word {
    Or(waitFor, Control(clear, all))
  }

  lemma SplitWord(waitFor: Word, control: Word)
    requires Plain(waitFor) && control & !CONTROL_BYTES == 0
    ensures (waitFor | control) & !CONTROL_BYTES == waitFor
    ensures (waitFor | control) & CLEAR_ON_EXIT == control & CLEAR_ON_EXIT
    ensures (waitFor | control) & WAIT_FOR_ALL == control & WAIT_FOR_ALL
  {
  }

  lemma ControlWord()
    ensures (CLEAR_ON_EXIT | WAIT_FOR_ALL) & !CONTROL_BYTES == 0 && CLEAR_ON_EXIT & !CONTROL_BYTES == 0
    ensures WAIT_FOR_ALL & !CONTROL_BYTES == 0 && 0 & !CONTROL_BYTES == 0
    ensures (CLEAR_ON_EXIT | WAIT_FOR_ALL) & CLEAR_ON_EXIT != 0 && (CLEAR_ON_EXIT | WAIT_FOR_ALL) & WAIT_FOR_ALL != 0
    ensures CLEAR_ON_EXIT & CLEAR_ON_EXIT != 0 && CLEAR_ON_EXIT & WAIT_FOR_ALL == 0
    ensures WAIT_FOR_ALL & CLEAR_ON_EXIT == 0 && WAIT_FOR_ALL & WAIT_FOR_ALL != 0
    ensures 0 & CLEAR_ON_EXIT == 0 && 0 & WAIT_FOR_ALL == 0
  {
  }

  /** The stored word gives back exactly what was asked for. */
  lemma ConditionRoundTrip(waitFor: Word, clear: bool, all: bool)
    requires Plain(waitFor)
    ensures EventBits(Condition(waitFor, clear, all)) == waitFor
    ensures ClearsOnExit(Condition(waitFor, clear, all)) == clear && WaitsForAll(Condition(waitFor, clear, all)) == all
  {
    hide Control;
    ControlBits(clear, all);
    SplitWord(waitFor, Control(clear, all));
  }

  lemma ControlBits(clear: bool, all: bool)
    ensures Control(clear, all) & !CONTROL_BYTES == 0
    ensures (Control(clear, all) & CLEAR_ON_EXIT != 0) == clear && (Control(clear, all) & WAIT_FOR_ALL != 0) == all
  {
    ControlWord();
    if clear {
      if all {
        assert Control(clear, all) == Or(CLEAR_ON_EXIT, WAIT_FOR_ALL);
      } else {
        assert Control(clear, all) == CLEAR_ON_EXIT;
      }
    } else if all {
      assert Control(clear, all) == WAIT_FOR_ALL;
    } else {
      assert Control(clear, all) == 0;
    }
  }

  /** The first half of `xEventGroupWaitBits`: met at once, given up at once, or the task joins the list. */
  datatype Wait = Done(value: Word) | Blocked

  function WaitBits(g: Group, t: TaskId, waitFor: Word, clear: bool, all: bool, ticks: nat): (Wait, Group) {
    if ConditionMet(g.bits, waitFor, all) then (Done(g.bits), if clear then ClearBits(g, waitFor) else g)
    else if ticks == 0 then (Done(g.bits), g)
    else (Blocked, g.(waiting := g.waiting + [Waiter(t, Condition(waitFor, clear, all))]))
  }

  lemma WaitBitsKeeps(g: Group, t: TaskId, waitFor: Word, clear: bool, all: bool, ticks: nat)
    requires NobodyOverlooked(g) && Plain(waitFor)
    ensures NobodyOverlooked(WaitBits(g, t, waitFor, clear, all, ticks).1)
  {
    hide ClearsOnExit, EventBits, WaitsForAll, Condition, HasAll, HasAny, AndNot;
    ConditionRoundTrip(waitFor, clear, all);
    if ConditionMet(g.bits, waitFor, all) { ClearBitsKeeps(g, waitFor); }
  }

  /** The second half, for a task whose wait timed out: the condition may have been met since. */
  function AfterTimeout(g: Group, waitFor: Word, clear: bool, all: bool): (Word, Group) {
    (g.bits, if ConditionMet(g.bits, waitFor, all) && clear then ClearBits(g, waitFor) else g)
  }

  /**
   What a wait that returns at once leaves: the bits it waited for are cleared if its condition was met and it asked
   for that, and nothing else changes.  It returns the bits as they were.
   */
  lemma WaitBitsLeaves(g: Group, t: TaskId, waitFor: Word, clear: bool, all: bool, ticks: nat, x: Word)
    requires OneBit(x)
    ensures var (w, r) := WaitBits(g, t, waitFor, clear, all, ticks);
      && (w.Done? <==> ConditionMet(g.bits, waitFor, all) || ticks == 0) && (w.Done? ==> w.value == g.bits && r.waiting == g.waiting)
      && (HasAny(r.bits, x) <==> HasAny(g.bits, x) && !(ConditionMet(g.bits, waitFor, all) && clear && HasAny(waitFor, x)))
  {
    hide OneBit, HasAny, ConditionMet, AndNot, Condition;
    OneBitMeets(g.bits, waitFor, x);
  }

  /** And the same for a wait that has timed out, which looks once more. */
  lemma AfterTimeoutLeaves(g: Group, waitFor: Word, clear: bool, all: bool, x: Word)
    requires OneBit(x)
    ensures var (v, r) := AfterTimeout(g, waitFor, clear, all);
      && v == g.bits && r.waiting == g.waiting
      && (HasAny(r.bits, x) <==> HasAny(g.bits, x) && !(ConditionMet(g.bits, waitFor, all) && clear && HasAny(waitFor, x)))
  {
    hide OneBit, HasAny, ConditionMet, AndNot;
    OneBitMeets(g.bits, waitFor, x);
  }

  /** A wait ends without its condition: by timeout, or because the task is suspended or deleted. */
  function Leave(g: Group, t: TaskId): (r: Group)
    ensures forall w :: w in r.waiting <==> w in g.waiting && w.task != t
    decreases |g.waiting|
  {
    if g.waiting == [] then g else
      var rest := Leave(g.(waiting := g.waiting[1..]), t).waiting;
      g.(waiting := if g.waiting[0].task == t then rest else [g.waiting[0]] + rest)
  }

  lemma LeaveKeeps(g: Group, t: TaskId)
    requires NobodyOverlooked(g)
    ensures NobodyOverlooked(Leave(g, t))
  {
    hide Satisfied;
    var r := Leave(g, t);
    LeaveBits(g, t);
    forall i | 0 <= i < |r.waiting| ensures !Satisfied(r.waiting[i], r.bits) {
      assert r.waiting[i] in r.waiting;
    }
  }

  lemma LeaveBits(g: Group, t: TaskId)
    ensures Leave(g, t).bits == g.bits
  {
  }

  /** The first half of `xEventGroupSync`. */
  function Sync(g: Group, t: TaskId, set_: Word, waitFor: Word, ticks: nat): (Wait, Group) {
    var s := SetBits(g, set_);
    if HasAll(Or(g.bits, set_), waitFor) then (Done(Or(g.bits, set_)), ClearBits(s, waitFor))
    else if ticks == 0 then (Done(s.bits), s)
    else (Blocked, s.(waiting := s.waiting + [Waiter(t, Condition(waitFor, true, true))]))
  }

  /** What a rendezvous leaves when it is met at once, and what it returns. */
  lemma SyncLeaves(g: Group, t: TaskId, set_: Word, waitFor: Word, ticks: nat, x: Word)
    requires OneBit(x)
    ensures var (w, r), met := Sync(g, t, set_, waitFor, ticks), HasAll(Or(g.bits, set_), waitFor);
      && (w.Done? <==> met || ticks == 0) && (w.Done? ==> w.value == if met then Or(g.bits, set_) else r.bits)
      && (HasAny(r.bits, x) <==> HasAny(SetBits(g, set_).bits, x) && !(met && HasAny(waitFor, x)))
  {
    hide OneBit, HasAny, HasAll, AndNot, Or, Condition, SetBits;
    OneBitMeets(SetBits(g, set_).bits, waitFor, x);
  }

  lemma StillMissing(g: Group, set_: Word, waitFor: Word)
    requires !HasAll(Or(g.bits, set_), waitFor)
    ensures !HasAll(SetBits(g, set_).bits, waitFor)
  {
    hide ToClear, HasAll, AndNot, Or, Released, Kept;
    var snapshot, clear := Or(g.bits, set_), ToClear(Released(g.waiting, Or(g.bits, set_)));
    if HasAll(AndNot(snapshot, clear), waitFor) { AllOfFewer(snapshot, clear, waitFor); }
  }

  lemma JoinKeeps(g: Group, w: Waiter)
    requires NobodyOverlooked(g) && !Satisfied(w, g.bits)
    ensures NobodyOverlooked(g.(waiting := g.waiting + [w]))
  {
    hide Satisfied;
  }

  lemma SyncKeeps(g: Group, t: TaskId, set_: Word, waitFor: Word, ticks: nat)
    requires Plain(waitFor)
    ensures NobodyOverlooked(Sync(g, t, set_, waitFor, ticks).1)
  {
    hide SetBits, ClearBits, NobodyOverlooked, Satisfied, Condition, HasAll, Or;
    SetBitsKeeps(g, set_);
    var s := SetBits(g, set_);
    if HasAll(Or(g.bits, set_), waitFor) {
      ClearBitsKeeps(s, waitFor);
    } else if ticks != 0 {
      StillMissing(g, set_, waitFor);
      UnmetCondition(s.bits, t, waitFor);
      JoinKeeps(s, Waiter(t, Condition(waitFor, true, true)));
    }
  }

  lemma UnmetCondition(bits: Word, t: TaskId, waitFor: Word)
    requires Plain(waitFor) && !HasAll(bits, waitFor)
    ensures !Satisfied(Waiter(t, Condition(waitFor, true, true)), bits)
  {
    hide ClearsOnExit, EventBits, WaitsForAll, Condition, HasAll, HasAny;
    ConditionRoundTrip(waitFor, true, true);
  }

  // ------------------------------------------------------------------ runs

  datatype Op = Set(bits: Word) | Clear(bits: Word) | WaitFor(t: TaskId, bits: Word, clear: bool, all: bool, ticks: nat)
    | TimedOut(bits: Word, clear: bool, all: bool) | Gone(t: TaskId) | Meet(t: TaskId, set_: Word, bits: Word, ticks: nat)

  /** The arguments the source asserts. */
  predicate Allowed(op: Op) {
    match op
    case Gone(_) => true
    case Meet(_, s, b, _) => Plain(s) && Plain(b) && b != 0
    case WaitFor(_, b, _, _, _) => Plain(b) && b != 0
    case _ => Plain(op.bits)
  }

  function Apply(g: Group, op: Op): Group {
    match op
    case Set(b) => SetBits(g, b)
    case Clear(b) => ClearBits(g, b)
    case WaitFor(t, b, clear, all, ticks) => WaitBits(g, t, b, clear, all, ticks).1
    case TimedOut(b, clear, all) => AfterTimeout(g, b, clear, all).1
    case Gone(t) => Leave(g, t)
    case Meet(t, s, b, ticks) => Sync(g, t, s, b, ticks).1
  }

  lemma ApplyKeeps(g: Group, op: Op)
    requires NobodyOverlooked(g) && Allowed(op)
    ensures NobodyOverlooked(Apply(g, op))
  {
    hide NobodyOverlooked, SetBits, ClearBits, WaitBits, Leave, Sync, ConditionMet;
    match op
    case Set(b) => SetBitsKeeps(g, b);
    case Clear(b) => ClearBitsKeeps(g, b);
    case WaitFor(t, b, clear, all, ticks) => WaitBitsKeeps(g, t, b, clear, all, ticks);
    case TimedOut(b, clear, all) => ClearBitsKeeps(g, b);
    case Gone(t) => LeaveKeeps(g, t);
    case Meet(t, s, b, ticks) => SyncKeeps(g, t, s, b, ticks);
  }

  function Run(g: Group, ops: seq<Op>): Group {
    if ops == [] then g else Apply(Run(g, ops[..|ops| - 1]), ops[|ops| - 1])
  }

  /** In every state any sequence of calls leads to, no task waits for bits that are already set. */
  lemma {:induction false} NobodyEverOverlooked(ops: seq<Op>)
    requires forall i :: 0 <= i < |ops| ==> Allowed(ops[i])
    ensures NobodyOverlooked(Run(Group(0, []), ops))
  {
    hide NobodyOverlooked, Apply, Allowed;
    if ops == [] {
      NobodyInEmpty();
    } else {
      NobodyEverOverlooked(ops[..|ops| - 1]);
      ApplyKeeps(Run(Group(0, []), ops[..|ops| - 1]), ops[|ops| - 1]);
    }
  }

  lemma NobodyInEmpty()
    ensures NobodyOverlooked(Group(0, []))
  {
  }

  // ------------------------------------------------------------------ a condition is never taken for an answer

  /** No stored condition carries the flag that marks an answer. */
  ghost predicate Unflagged(g: Group) {
    forall w :: w in g.waiting ==> !HasAny(w.value, UNBLOCKED_DUE_TO_BIT_SET)
  }

  lemma FlagApart(waitFor: Word, control: Word)
    requires Plain(waitFor) && control & UNBLOCKED_DUE_TO_BIT_SET == 0
    ensures (waitFor | control) & UNBLOCKED_DUE_TO_BIT_SET == 0
  {
  }

  lemma ControlUnflagged(clear: bool, all: bool)
    ensures Control(clear, all) & UNBLOCKED_DUE_TO_BIT_SET == 0
  {
    if clear {
      if all {
        assert Control(clear, all) == Or(CLEAR_ON_EXIT, WAIT_FOR_ALL);
      } else {
        assert Control(clear, all) == CLEAR_ON_EXIT;
      }
    } else if all {
      assert Control(clear, all) == WAIT_FOR_ALL;
    } else {
      assert Control(clear, all) == 0;
    }
  }

  lemma ConditionUnflagged(waitFor: Word, clear: bool, all: bool)
    requires Plain(waitFor)
    ensures !HasAny(Condition(waitFor, clear, all), UNBLOCKED_DUE_TO_BIT_SET)
  {
    hide Control;
    ControlUnflagged(clear, all);
    FlagApart(waitFor, Control(clear, all));
  }

  lemma ApplyUnflagged(g: Group, op: Op)
    requires Unflagged(g) && Allowed(op)
    ensures Unflagged(Apply(g, op))
  {
    hide HasAny, HasAll, Condition, Satisfied, Or, AndNot, ConditionMet, Released, Kept, ToClear, Plain;
    match op
    case WaitFor(t, b, clear, all, ticks) => ConditionUnflagged(b, clear, all);
    case Meet(t, set_, b, ticks) => ConditionUnflagged(b, true, true);
    case _ =>
  }

  /** So a task that leaves the list with its condition still in its item can tell that its wait timed out. */
  lemma {:induction false} TimeoutsAreTold(ops: seq<Op>)
    requires forall i :: 0 <= i < |ops| ==> Allowed(ops[i])
    ensures Unflagged(Run(Group(0, []), ops))
  {
    hide Unflagged, Apply, Allowed;
    if ops == [] {
      UnflaggedEmpty();
    } else {
      TimeoutsAreTold(ops[..|ops| - 1]);
      ApplyUnflagged(Run(Group(0, []), ops[..|ops| - 1]), ops[|ops| - 1]);
    }
  }

  lemma UnflaggedEmpty()
    ensures Unflagged(Group(0, []))
  {
  }

  // ------------------------------------------------------------------ what a released task gets

  /** The item value a released task finds, and what its call returns. */
  function Answer(snapshot: Word): Word { Or(snapshot, UNBLOCKED_DUE_TO_BIT_SET) }

  function Returned(answer: Word): Word { AndNot(answer, CONTROL_BYTES) }

  /** A released task is told so, and the value its call returns meets the condition it waited for. */
  lemma ReleasedReturnsCondition(w: Waiter, snapshot: Word)
    requires Satisfied(w, snapshot) && Plain(snapshot)
    ensures Answer(snapshot) & UNBLOCKED_DUE_TO_BIT_SET != 0
    ensures Returned(Answer(snapshot)) == snapshot && Satisfied(w, Returned(Answer(snapshot)))
  {
    hide Satisfied, Answer, Returned;
    AnswerRoundTrip(snapshot);
  }

  lemma AnswerRoundTrip(snapshot: Word)
    requires Plain(snapshot)
    ensures Answer(snapshot) & UNBLOCKED_DUE_TO_BIT_SET != 0 && Returned(Answer(snapshot)) == snapshot
  {
  }

  /** A task whose group is deleted is told that it was released, by no bits. */
  lemma DeletedReturnsNothing()
    ensures HasAny(UNBLOCKED_DUE_TO_BIT_SET, UNBLOCKED_DUE_TO_BIT_SET) && Returned(UNBLOCKED_DUE_TO_BIT_SET) == 0
  {
  }

  /** The item values after the tasks of `rs` have each been given `value`. */
  function Answered(answers: map<TaskId, Word>, rs: seq<Waiter>, value: Word): map<TaskId, Word> {
    if rs == [] then answers else Answered(answers, rs[..|rs| - 1], value)[rs[|rs| - 1].task := value]
  }

  lemma AnsweredNone(answers: map<TaskId, Word>, value: Word)
    ensures Answered(answers, [], value) == answers
  {
  }

  lemma AnswerStep(answers: map<TaskId, Word>, rs: seq<Waiter>, w: Waiter, value: Word)
    ensures Answered(answers, rs + [w], value) == Answered(answers, rs, value)[w.task := value]
  {
    assert (rs + [w])[..|rs|] == rs;
  }

  /** Exactly the released tasks get an answer, and it is the one snapshot. */
  lemma {:induction false} AnsweredExactly(answers: map<TaskId, Word>, rs: seq<Waiter>, value: Word, t: TaskId)
    ensures (exists i :: 0 <= i < |rs| && rs[i].task == t) ==> t in Answered(answers, rs, value) && Answered(answers, rs, value)[t] == value
    ensures !(exists i :: 0 <= i < |rs| && rs[i].task == t) ==>
      (t in Answered(answers, rs, value) <==> t in answers) && (t in answers ==> Answered(answers, rs, value)[t] == answers[t])
  {
    if rs != [] {
      var was := rs[..|rs| - 1];
      AnsweredExactly(answers, was, value, t);
      assert forall i :: 0 <= i < |was| ==> was[i] == rs[i];
    }
  }

  // ------------------------------------------------------------------ the event group itself

  class EventGroup {
    var uxEventBits: Word
    var xTasksWaitingForBits: seq<Waiter>
    /** The item values of tasks that have left the list, until `uxTaskResetEventItemValue` fetches them. */
    var answers: map<TaskId, Word>

    ghost function G(): Group
      reads this
    {
      Group(uxEventBits, xTasksWaitingForBits)
    }

    constructor ()
      ensures G() == Group(0, []) && answers == map[]
    {
      uxEventBits, xTasksWaitingForBits, answers := 0, [], map[];
    }

    /** `xTaskRemoveFromUnorderedEventList` on the list item at position `i`. */
    method RemoveFromUnorderedEventList(i: nat, value: Word)
      requires i < |xTasksWaitingForBits|
      modifies `xTasksWaitingForBits, `answers
      ensures xTasksWaitingForBits == old(xTasksWaitingForBits)[..i] + old(xTasksWaitingForBits)[i + 1..]
      ensures answers == old(answers)[old(xTasksWaitingForBits)[i].task := value]
    {
      answers := answers[xTasksWaitingForBits[i].task := value];
      xTasksWaitingForBits := xTasksWaitingForBits[..i] + xTasksWaitingForBits[i + 1..];
    }

    /**
     `xEventGroupSetBits`: the list is walked while items are taken off it, and the bits to clear are kept
     back until the walk ends, so that every waiter is tested against the same snapshot.
     */
    method SetEventBits(uxBitsToSet: Word) returns (uxReturn: Word)
      modifies this
      ensures G() == SetBits(old(G()), uxBitsToSet) && uxReturn == uxEventBits
      ensures var snapshot := Or(old(uxEventBits), uxBitsToSet);
        answers == Answered(old(answers), Released(old(xTasksWaitingForBits), snapshot), Answer(snapshot))
    {
      hide Satisfied, ToClear, Clears, Released, Kept, Or, AndNot, Answered;
      ghost var ws := xTasksWaitingForBits;
      WalkStart(ws, Or(uxEventBits, uxBitsToSet));
      AnsweredNone(answers, Answer(Or(uxEventBits, uxBitsToSet)));
      var uxBitsToClear: Word := 0;
      uxEventBits := Or(uxEventBits, uxBitsToSet);
      ghost var snapshot := uxEventBits;
      ghost var done := 0;
      // `pxListItem` is the item at position `next`; items before it have been tested and kept.
      var next := 0;
      while next < |xTasksWaitingForBits|
        invariant done <= |ws| && uxEventBits == snapshot && next <= |xTasksWaitingForBits|
        invariant xTasksWaitingForBits[..next] == Kept(ws[..done], snapshot) && xTasksWaitingForBits[next..] == ws[done..]
        invariant uxBitsToClear == ToClear(Released(ws[..done], snapshot))
        invariant answers == Answered(old(answers), Released(ws[..done], snapshot), Answer(snapshot))
        decreases |ws| - done
      {
        var item := xTasksWaitingForBits[next];
        assert item == xTasksWaitingForBits[next..][0] == ws[done];
        WalkStep(ws, done, snapshot);
        var xMatchFound := Match(item, uxEventBits);
        if xMatchFound {
          AnswerStep(old(answers), Released(ws[..done], snapshot), item, Answer(snapshot));
          uxBitsToClear := AddClears(uxBitsToClear, item);
          assert xTasksWaitingForBits[next..][1..] == xTasksWaitingForBits[next + 1..];
          RemoveFromUnorderedEventList(next, Or(uxEventBits, UNBLOCKED_DUE_TO_BIT_SET));
        } else {
          assert xTasksWaitingForBits[..next + 1] == xTasksWaitingForBits[..next] + [item];
          next := next + 1;
        }
        done := done + 1;
      }
      assert ws[..done] == ws;
      uxEventBits := AndNot(uxEventBits, uxBitsToClear);
      uxReturn := uxEventBits;
    }

    /** `xEventGroupClearBits`. */
    method ClearEventBits(uxBitsToClear: Word) returns (uxReturn: Word)
      modifies `uxEventBits
      ensures G() == ClearBits(old(G()), uxBitsToClear) && uxReturn == old(uxEventBits)
    {
      uxReturn := uxEventBits;
      uxEventBits := AndNot(uxEventBits, uxBitsToClear);
    }

    /** `xEventGroupWaitBits`, up to the resuming of the scheduler. */
    method WaitEventBits(t: TaskId, uxBitsToWaitFor: Word, xClearOnExit: bool, xWaitForAllBits: bool, xTicksToWait: nat) returns (r: Wait)
      modifies `uxEventBits, `xTasksWaitingForBits
      ensures (r, G()) == WaitBits(old(G()), t, uxBitsToWaitFor, xClearOnExit, xWaitForAllBits, xTicksToWait)
    {
      hide Or, AndNot, HasAll, HasAny;
      var uxCurrentEventBits := uxEventBits;
      if ConditionMet(uxCurrentEventBits, uxBitsToWaitFor, xWaitForAllBits) {
        if xClearOnExit {
          uxEventBits := AndNot(uxEventBits, uxBitsToWaitFor);
        }
        r := Done(uxCurrentEventBits);
      } else if xTicksToWait == 0 {
        r := Done(uxCurrentEventBits);
      } else {
        var uxControlBits: Word := Control(xClearOnExit, xWaitForAllBits);
        xTasksWaitingForBits := xTasksWaitingForBits + [Waiter(t, Or(uxBitsToWaitFor, uxControlBits))];
        r := Blocked;
      }
    }

    /** The tick takes a task whose block time is up off the list; its item keeps the condition it stored. */
    method LeaveByTimeout(i: nat)
      requires i < |xTasksWaitingForBits|
      modifies `xTasksWaitingForBits, `answers
      ensures xTasksWaitingForBits == old(xTasksWaitingForBits)[..i] + old(xTasksWaitingForBits)[i + 1..]
      ensures answers == old(answers)[old(xTasksWaitingForBits)[i].task := old(xTasksWaitingForBits)[i].value]
      ensures NoTwice(old(xTasksWaitingForBits)) ==> G() == Leave(old(G()), old(xTasksWaitingForBits)[i].task)
      ensures Unflagged(old(G())) ==> !HasAny(answers[old(xTasksWaitingForBits)[i].task], UNBLOCKED_DUE_TO_BIT_SET)
    {
      hide HasAny, Leave;
      var ws := xTasksWaitingForBits;
      if NoTwice(ws) { LeaveOne(G(), i); }
      assert ws[i] in ws;
      answers := answers[ws[i].task := ws[i].value];
      xTasksWaitingForBits := ws[..i] + ws[i + 1..];
    }

    /**
     The rest of a wait, for a task that was blocked: either it was released, or it looks at the bits once more.
     Its item value is fetched and reset, so that it cannot be taken for the answer to a later wait.
     */
    method FinishWait(t: TaskId, uxBitsToWaitFor: Word, xClearOnExit: bool, xWaitForAllBits: bool) returns (uxReturn: Word)
      requires t in answers
      modifies `uxEventBits, `answers
      ensures answers == old(answers) - {t}
      ensures HasAny(old(answers[t]), UNBLOCKED_DUE_TO_BIT_SET) ==> uxReturn == Returned(old(answers[t])) && G() == old(G())
      ensures !HasAny(old(answers[t]), UNBLOCKED_DUE_TO_BIT_SET) ==>
        (uxReturn, G()) == (Returned(old(uxEventBits)), AfterTimeout(old(G()), uxBitsToWaitFor, xClearOnExit, xWaitForAllBits).1)
    {
      hide AndNot, HasAll, HasAny;
      uxReturn := answers[t];
      answers := answers - {t};
      if !HasAny(uxReturn, UNBLOCKED_DUE_TO_BIT_SET) {
        uxReturn := uxEventBits;
        if ConditionMet(uxReturn, uxBitsToWaitFor, xWaitForAllBits) {
          if xClearOnExit {
            uxEventBits := AndNot(uxEventBits, uxBitsToWaitFor);
          }
        }
      }
      uxReturn := AndNot(uxReturn, CONTROL_BYTES);
    }

    /** `xEventGroupSync`, up to the resuming of the scheduler. */
    method SyncEventBits(t: TaskId, uxBitsToSet: Word, uxBitsToWaitFor: Word, xTicksToWait: nat) returns (r: Wait)
      modifies this
      ensures (r, G()) == Sync(old(G()), t, uxBitsToSet, uxBitsToWaitFor, xTicksToWait)
      ensures var snapshot := Or(old(uxEventBits), uxBitsToSet);
        answers == Answered(old(answers), Released(old(xTasksWaitingForBits), snapshot), Answer(snapshot))
    {
      hide Or, AndNot, HasAll, HasAny, SetBits, Answer, Answered, Released, Condition;
      var uxOriginalBitValue := uxEventBits;
      var _ := SetEventBits(uxBitsToSet);
      if HasAll(Or(uxOriginalBitValue, uxBitsToSet), uxBitsToWaitFor) {
        r := Done(Or(uxOriginalBitValue, uxBitsToSet));
        uxEventBits := AndNot(uxEventBits, uxBitsToWaitFor);
      } else if xTicksToWait != 0 {
        xTasksWaitingForBits := xTasksWaitingForBits + [Waiter(t, Condition(uxBitsToWaitFor, true, true))];
        r := Blocked;
      } else {
        r := Done(uxEventBits);
      }
    }

    /** `vEventGroupDelete`: every waiter is released, told of no bits. */
    method Delete()
      modifies `xTasksWaitingForBits, `answers
      ensures xTasksWaitingForBits == [] && answers == Answered(old(answers), old(xTasksWaitingForBits), UNBLOCKED_DUE_TO_BIT_SET)
    {
      hide Answered;
      ghost var ws := xTasksWaitingForBits;
      ghost var done := 0;
      AnsweredNone(answers, UNBLOCKED_DUE_TO_BIT_SET);
      while |xTasksWaitingForBits| > 0
        invariant done <= |ws| && xTasksWaitingForBits == ws[done..]
        invariant answers == Answered(old(answers), ws[..done], UNBLOCKED_DUE_TO_BIT_SET)
        decreases |xTasksWaitingForBits|
      {
        AnswerStep(old(answers), ws[..done], ws[done], UNBLOCKED_DUE_TO_BIT_SET);
        assert ws[..done + 1] == ws[..done] + [ws[done]];
        RemoveFromUnorderedEventList(0, UNBLOCKED_DUE_TO_BIT_SET);
        done := done + 1;
      }
      assert ws[..done] == ws;
    }
  }

  /** A task has one event item, so it is on the list at most once. */
  predicate NoTwice(ws: seq<Waiter>) {
    forall i, j :: 0 <= i < j < |ws| ==> ws[i].task != ws[j].task
  }

  lemma NoTwiceRest(ws: seq<Waiter>)
    requires NoTwice(ws) && ws != []
    ensures NoTwice(ws[1..]) && forall w :: w in ws[1..] ==> w.task != ws[0].task
  {
  }

  lemma {:induction false} LeaveOne(g: Group, i: nat)
    requires NoTwice(g.waiting) && i < |g.waiting|
    ensures Leave(g, g.waiting[i].task) == g.(waiting := g.waiting[..i] + g.waiting[i + 1..])
    decreases |g.waiting|
  {
    hide NoTwice;
    var ws, t := g.waiting, g.waiting[i].task;
    var rest := g.(waiting := ws[1..]);
    NoTwiceRest(ws);
    TakenOut(ws, i);
    if i == 0 {
      LeaveNone(rest, t);
    } else {
      LeaveOne(rest, i - 1);
    }
  }

  lemma TakenOut(ws: seq<Waiter>, i: nat)
    requires i < |ws|
    ensures i == 0 ==> ws[..i] + ws[i + 1..] == ws[1..]
    ensures i > 0 ==> ws[i] == ws[1..][i - 1] && ws[i] in ws[1..]
    ensures i > 0 ==> ws[..i] + ws[i + 1..] == [ws[0]] + (ws[1..][..i - 1] + ws[1..][i..])
  {
  }

  lemma {:induction false} LeaveNone(g: Group, t: TaskId)
    requires forall w :: w in g.waiting ==> w.task != t
    ensures Leave(g, t) == g
    decreases |g.waiting|
  {
    if g.waiting != [] {
      assert g.waiting[0] in g.waiting && forall w :: w in g.waiting[1..] ==> w in g.waiting;
      LeaveNone(g.(waiting := g.waiting[1..]), t);
      assert g.waiting == [g.waiting[0]] + g.waiting[1..];
    }
  }

  /** The test `xEventGroupSetBits` makes of one list item. */
  method Match(item: Waiter, uxEventBits: Word) returns (xMatchFound: bool)
    ensures xMatchFound == Satisfied(item, uxEventBits)
  {
    hide EventBits, HasAny, HasAll;
    var uxBitsWaitedFor := EventBits(item.value);
    TestsCommute(uxBitsWaitedFor, uxEventBits);
    xMatchFound := false;
    if !HasAny(item.value, WAIT_FOR_ALL) {
      if HasAny(uxBitsWaitedFor, uxEventBits) {
        xMatchFound := true;
      }
    } else if HasAll(uxEventBits, uxBitsWaitedFor) {
      xMatchFound := true;
    }
  }

  /** The bits to clear, with those of one more matching item. */
  method AddClears(uxBitsToClear: Word, item: Waiter) returns (r: Word)
    ensures r == Or(uxBitsToClear, Clears(item))
  {
    hide EventBits, Or, HasAny;
    OrAssociates(uxBitsToClear, 0, 0);
    r := uxBitsToClear;
    if HasAny(item.value, CLEAR_ON_EXIT) {
      r := Or(uxBitsToClear, EventBits(item.value));
    }
  }

  lemma TestsCommute(a: Word, b: Word)
    ensures HasAny(a, b) == HasAny(b, a)
  {
    assert a & b == b & a;
  }

  lemma OrAssociates(a: Word, b: Word, c: Word)
    ensures Or(Or(a, b), c) == Or(a, Or(b, c)) && Or(0, a) == a && Or(a, 0) == a
  {
  }

  lemma WalkStart(ws: seq<Waiter>, snapshot: Word)
    ensures ws[..0] == [] && ws[0..] == ws && Kept([], snapshot) == Released([], snapshot) == [] && ToClear([]) == 0
  {
  }

  /** One more item tested. */
  lemma WalkStep(ws: seq<Waiter>, done: nat, snapshot: Word)
    requires done < |ws|
    ensures ws[..done + 1] == ws[..done] + [ws[done]] && ws[done..][1..] == ws[done + 1..]
    ensures Satisfied(ws[done], snapshot) ==>
      && Kept(ws[..done + 1], snapshot) == Kept(ws[..done], snapshot)
      && Released(ws[..done + 1], snapshot) == Released(ws[..done], snapshot) + [ws[done]]
      && ToClear(Released(ws[..done + 1], snapshot)) == Or(ToClear(Released(ws[..done], snapshot)), Clears(ws[done]))
    ensures !Satisfied(ws[done], snapshot) ==>
      && Kept(ws[..done + 1], snapshot) == Kept(ws[..done], snapshot) + [ws[done]]
      && Released(ws[..done + 1], snapshot) == Released(ws[..done], snapshot)
  {
    hide Satisfied, Clears, ToClear, Released, Kept, Or;
    assert ws[..done + 1] == ws[..done] + [ws[done]];
    FilterAppend(ws[..done], ws[done], snapshot);
    ClearAppend(Released(ws[..done], snapshot), ws[done]);
    assert Released(ws[..done], snapshot) + [] == Released(ws[..done], snapshot);
    assert Kept(ws[..done], snapshot) + [] == Kept(ws[..done], snapshot);
  }

  lemma {:induction false} FilterAppend(ws: seq<Waiter>, w: Waiter, snapshot: Word)
    ensures Released(ws + [w], snapshot) == Released(ws, snapshot) + if Satisfied(w, snapshot) then [w] else []
    ensures Kept(ws + [w], snapshot) == Kept(ws, snapshot) + if Satisfied(w, snapshot) then [] else [w]
  {
    hide Satisfied;
    if ws == [] {
      assert ws + [w] == [w];
    } else {
      var rest := ws[1..];
      assert (ws + [w])[1..] == rest + [w] && (ws + [w])[0] == ws[0];
      FilterAppend(rest, w, snapshot);
      Assoc([ws[0]], Released(rest, snapshot), if Satisfied(w, snapshot) then [w] else []);
      Assoc([ws[0]], Kept(rest, snapshot), if Satisfied(w, snapshot) then [] else [w]);
    }
  }

  lemma {:induction false} ClearAppend(ws: seq<Waiter>, w: Waiter)
    ensures ToClear(ws + [w]) == Or(ToClear(ws), Clears(w))
  {
    hide Clears, Or;
    if ws == [] {
      assert ws + [w] == [w];
      OrAssociates(Clears(w), 0, 0);
    } else {
      assert (ws + [w])[1..] == ws[1..] + [w] && (ws + [w])[0] == ws[0];
      ClearAppend(ws[1..], w);
      OrAssociates(Clears(ws[0]), ToClear(ws[1..]), Clears(w));
    }
  }
}

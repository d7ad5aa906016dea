/** No tick is lost: the tick interrupts of a run are all counted, and suspending the scheduler only delays them. */
module KernelTicks {
  import opened Modular
  import opened Sequences
  import opened StateLists
  import opened EventItems
  import opened Ownership
  import opened KernelSpec
  import opened KernelOps
  import opened KernelOwnership
  import opened KernelMutex
  import opened KernelRuns

  // ------------------------------------------------------------------ k suspended ticks are k ticks

  /** The state without the two things a replay may leave different: a switch request and old pended ticks. */
  function Plain(s: K): K {
    s.(clock := s.clock.(pended := 0), cpu := s.cpu.(yieldPending := false))
  }

  lemma PlainCore(s: K, lo: nat)
    requires Core(s, lo)
    ensures Core(Plain(s), lo)
  {
  }

  lemma PlainMakeReady(s: K, t: TaskId, lo: nat)
    requires Core(s, lo) && Blocked(s.lists, t)
    ensures Core(Plain(s), lo)
    ensures MakeReady(Plain(s), t) == Plain(MakeReady(s, t))
  {
    hide ListsOk, EventsOk, Owned, Placed, Consistent, Configured, ToReady, EventItems.Remove;
    PlainCore(s, lo);
    CoreParts(s, lo);
  }

  lemma {:induction false} PlainReleaseDue(s: K)
    requires Core(s, s.clock.now)
    ensures Core(Plain(s), s.clock.now) && ReleaseDue(Plain(s)) == Plain(ReleaseDue(s))
    decreases |s.lists.delayed|
  {
    hide Core, MakeReady;
    PlainCore(s, s.clock.now);
    CoreParts(s, s.clock.now);
    if HasDue(s) {
      var t := s.lists.delayed[0];
      DelayedKnown(s, t, s.clock.now);
      PlainMakeReady(s, t, s.clock.now);
      MakeReadyKeeps(s, t, s.clock.now);
      MakeReadyOnly(s, t);
      PlainReleaseDue(MakeReady(s, t));
    }
  }

  lemma PlainTick(s: K)
    requires Core(s, s.clock.now + 1)
    ensures Core(Plain(s), s.clock.now + 1) && TickNow(Plain(s)) == Plain(TickNow(s))
  {
    hide Core, ReleaseDue;
    PlainCore(s, s.clock.now + 1);
    TimePasses(s);
    PlainReleaseDue(s.(clock := s.clock.(now := s.clock.now + 1)));
  }

  /** `k` tick interrupts in a row. */
  function Ticks(s: K, k: nat): K
    requires Inv(s)
    decreases k
  {
    if k == 0 then s else
      TickKeeps(s);
      Ticks(Tick(s), k - 1)
  }

  /** While the scheduler is suspended, ticks only add to the pended count, which is an unsigned 32-bit number. */
  lemma {:induction false} SuspendedTicksPend(s: K, k: nat)
    requires Inv(s) && s.clock.depth > 0
    ensures Ticks(s, k) == s.(clock := s.clock.(pended := (s.clock.pended + k) % UBASE))
    decreases k
  {
    hide Core;
    if k > 0 {
      TickKeeps(s);
      SuspendedTicksPend(Tick(s), k - 1);
      assert ((s.clock.pended + 1) % UBASE + (k - 1)) % UBASE == (s.clock.pended + k) % UBASE;
    }
  }

  lemma {:induction false} ReplayIsTicks(s: K, p: K, k: nat)
    requires Core(s, s.clock.now + 1) && Inv(p) && p.clock.depth == 0 && Plain(s) == Plain(p)
    ensures Plain(Replay(s, k)) == Plain(Ticks(p, k))
    decreases k
  {
    hide Core, TickNow, TickSwitches;
    if k > 0 {
      ReplayTickExact(s);
      TickKeeps(p);
      PlainTick(s);
      PlainTick(p);
      TickNowExact(p);
      ReplayIsTicks(ReplayTick(s), Tick(p), k - 1);
    }
  }

  function SuspendScheduler(s: K): K {
    s.(clock := s.clock.(depth := s.clock.depth + 1))
  }

  /**
   Suspending the scheduler, taking `k` ticks and resuming reaches the same time, lists and tasks as taking
   the `k` ticks with the scheduler running, for every `k` the pended count can hold.
   */
  lemma SuspensionOnlyDelaysTicks(s: K, k: nat)
    requires Inv(s) && s.clock.depth == 0 && k < UBASE
    ensures Inv(SuspendScheduler(s)) && Inv(Ticks(SuspendScheduler(s), k))
    ensures Ticks(SuspendScheduler(s), k).clock.depth > 0
    ensures Plain(ResumeAll(Ticks(SuspendScheduler(s), k))) == Plain(Ticks(s, k))
  {
    hide Core, Replay, Ticks, ResumeAll;
    var u := SuspendScheduler(s);
    SuspendAllKeeps(s);
    SuspendedTicksPend(u, k);
    TicksKeep(u, k);
    PendedCore(s, k);
    ResumedReplay(Ticks(u, k), s.(clock := s.clock.(pended := k)));
    ReplayIsTicks(s.(clock := s.clock.(pended := k)), s, k);
  }

  lemma ResumedReplay(s: K, d: K)
    requires Inv(s) && s.clock.depth == 1 && s.ev.pending == []
    requires d == s.(clock := s.clock.(depth := 0)) && Core(d, d.clock.now + 1)
    ensures Plain(ResumeAll(s)) == Plain(Replay(d, s.clock.pended))
  {
    hide Core, Replay;
    NothingPending(d);
  }

  lemma PendedCore(s: K, k: nat)
    requires Core(s, s.clock.now + 1)
    ensures Core(s.(clock := s.clock.(pended := k)), s.clock.now + 1)
  {
  }

  lemma NothingPending(s: K)
    requires Core(s, s.clock.now + 1) && s.ev.pending == []
    ensures DrainPending(s) == s
  {
  }

  lemma {:induction false} TicksKeep(s: K, k: nat)
    requires Inv(s)
    ensures Inv(Ticks(s, k))
    ensures Ticks(s, k).clock.depth == s.clock.depth
    ensures s.clock.depth == 0 ==> Ticks(s, k).clock.now == s.clock.now + k
    decreases k
  {
    hide Core, TickNow;
    if k > 0 {
      TickKeeps(s);
      if s.clock.depth == 0 { TickNowExact(s); }
      TicksKeep(Tick(s), k - 1);
    }
  }

  /** The exact condition: the two reach the same time if and only if the pended count does not wrap. */
  lemma SuspensionLosesTicksBeyondCounter(s: K, k: nat)
    requires Inv(s) && s.clock.depth == 0
    ensures Inv(SuspendScheduler(s)) && Inv(Ticks(SuspendScheduler(s), k))
    ensures Ticks(SuspendScheduler(s), k).clock.depth > 0
    ensures ResumeAll(Ticks(SuspendScheduler(s), k)).clock.now == Ticks(s, k).clock.now <==> k < UBASE
  {
    hide Core, ResumeAll;
    var u := SuspendScheduler(s);
    SuspendAllKeeps(s);
    SuspendedTicksPend(u, k);
    TicksKeep(u, k);
    TicksKeep(s, k);
    ResumedClock(Ticks(u, k));
  }

  lemma ResumedClock(s: K)
    requires Inv(s) && s.clock.depth > 0
    ensures Inv(ResumeAll(s))
    ensures s.clock.depth == 1 ==> ResumeAll(s).clock.now == s.clock.now + s.clock.pended && ResumeAll(s).clock.pended == 0
    ensures s.clock.depth > 1 ==> ResumeAll(s).clock == s.clock.(depth := s.clock.depth - 1)
  {
    hide Core, DrainPending, Replay;
    ResumeAllKeeps(s);
  }

  // ------------------------------------------------------------------ every tick interrupt is counted

  function CountTicks(ops: seq<Op>): nat {
    if ops == [] then 0
    else CountTicks(ops[..|ops| - 1]) + if ops[|ops| - 1] == OnClock(TickInterrupt) then 1 else 0
  }

  lemma TaskStepClock(s: K, op: TaskOp, r: K)
    requires Inv(s) && TaskStep(s, op, r)
    ensures r.clock == s.clock && r.cfg == s.cfg
  {
    hide Core, CreateLists, SuspendLists, ToReady, TerminateLists, ForgetLists, MoveLists, SetFreeValue;
  }

  lemma WaitStepClock(s: K, op: WaitOp, r: K)
    requires Inv(s) && WaitStep(s, op, r)
    ensures r.clock == s.clock && r.cfg == s.cfg
  {
    hide Core, ToReady, BlockLists, SortedInsert;
  }

  lemma MutexStepClock(s: K, op: MutexOp, r: K)
    requires Inv(s) && MutexStep(s, op, r)
    ensures r.clock == s.clock && r.cfg == s.cfg
  {
    hide Core, ToReady, BlockLists, SortedInsert, MoveLists, Release, Take, SetFreeValue;
  }

  /** One more tick, unless that made the pended count wrap. */
  predicate CountsOne(c: Clock, d: Clock) {
    || d.now + d.pended == c.now + c.pended + 1
    || d.now + d.pended + UBASE == c.now + c.pended + 1
  }

  lemma ClockStepCounts(s: K, op: ClockOp, r: K)
    requires Inv(s) && ClockStep(s, op, r)
    ensures r.cfg == s.cfg
    ensures op != TickInterrupt ==> r.clock.now + r.clock.pended == s.clock.now + s.clock.pended
    ensures op == TickInterrupt ==> CountsOne(s.clock, r.clock)
  {
    hide Core, TickNow, ResumeAll;
    match op
    case TickInterrupt => if s.clock.depth == 0 { TickNowExact(s); }
    case SuspendAll =>
    case EnableAll => ResumeAllKeeps(s); ResumeCfg(s);
    case Switch =>
  }

  lemma ResumeCfg(s: K)
    requires Inv(s) && s.clock.depth > 0
    ensures ResumeAll(s).cfg == s.cfg
  {
    hide Core, DrainPending, Replay;
    var d := s.(clock := s.clock.(depth := s.clock.depth - 1));
    if d.clock.depth == 0 {
      DrainKeepsCore(s);
      DrainPendingKeeps(d);
      ReplayKeeps(DrainPending(d), s.clock.pended);
    }
  }

  lemma DrainKeepsCore(s: K)
    requires Inv(s) && s.clock.depth > 0
    ensures Core(s.(clock := s.clock.(depth := s.clock.depth - 1)), s.clock.now + 1)
  {
  }

  lemma StepCounts(s: K, op: Op, r: K)
    requires Inv(s) && Next(s, op, r)
    ensures r.cfg == s.cfg
    ensures op != OnClock(TickInterrupt) ==> r.clock.now + r.clock.pended == s.clock.now + s.clock.pended
    ensures op == OnClock(TickInterrupt) ==> CountsOne(s.clock, r.clock)
  {
    hide Inv, ClockStep, TaskStep, WaitStep, MutexStep;
    match op
    case OnClock(c) => ClockStepCounts(s, c, r);
    case OnTask(k) => TaskStepClock(s, k, r);
    case OnWait(w) => WaitStepClock(s, w, r);
    case OnMutex(m) => MutexStepClock(s, m, r);
  }

  /**
   Over every run, `xTickCount + uxPendedTicks` counts every tick interrupt modulo M: both tick widths
   divide the width of the pended count, so not even a wrap of that count loses one.
   */
  lemma {:induction false} EveryTickCounted(states: seq<K>, ops: seq<Op>, n: nat)
    requires IsRun(states, ops) && Inv(states[0]) && n <= |ops|
    requires states[0].cfg.M > 0 && UBASE % states[0].cfg.M == 0
    ensures states[n].cfg == states[0].cfg
    ensures (states[n].clock.now + states[n].clock.pended) % states[0].cfg.M
         == (states[0].clock.now + states[0].clock.pended + CountTicks(ops[..n])) % states[0].cfg.M
  {
    hide Inv, Next;
    if n > 0 {
      EveryTickCounted(states, ops, n - 1);
      RunKeeps(states, ops, n - 1);
      var a, b := states[n - 1], states[n];
      assert Step(a, ops[n - 1], b);
      StepCounts(a, ops[n - 1], b);
      assert ops[..n][..n - 1] == ops[..n - 1];
      var M := states[0].cfg.M;
      var x, y := a.clock.now + a.clock.pended, b.clock.now + b.clock.pended;
      var base := states[0].clock.now + states[0].clock.pended;
      if ops[n - 1] == OnClock(TickInterrupt) {
        AddBoth(x, base + CountTicks(ops[..n - 1]), 1, M);
        if y + UBASE == x + 1 { WholeTurns(y, M); }
      }
    }
  }

  lemma WholeTurns(y: nat, M: nat)
    requires M > 0 && UBASE % M == 0
    ensures (y + UBASE) % M == y % M
  {
    AddTurns(y, UBASE / M, M);
  }

  /** While the count does not wrap, none is lost in absolute time either. */
  lemma {:induction false} NoTickLost(states: seq<K>, ops: seq<Op>, n: nat)
    requires IsRun(states, ops) && Inv(states[0]) && n <= |ops|
    requires forall i :: 0 <= i < n ==> states[i].clock.pended < UBASE - 1
    ensures states[n].clock.now + states[n].clock.pended
         == states[0].clock.now + states[0].clock.pended + CountTicks(ops[..n])
  {
    hide Inv, Next;
    if n > 0 {
      NoTickLost(states, ops, n - 1);
      RunKeeps(states, ops, n - 1);
      assert Step(states[n - 1], ops[n - 1], states[n]);
      StepCounts(states[n - 1], ops[n - 1], states[n]);
      TimeNeverFalls(states[n - 1], ops[n - 1], states[n]);
      assert ops[..n][..n - 1] == ops[..n - 1];
    }
  }

  lemma TimeNeverFalls(s: K, op: Op, r: K)
    requires Inv(s) && Next(s, op, r)
    ensures s.clock.now <= r.clock.now
  {
    hide Core, ResumeAll, TickNow, TaskStep, WaitStep, MutexStep;
    match op
    case OnClock(TickInterrupt) => if s.clock.depth == 0 { TickNowExact(s); }
    case OnClock(EnableAll) => ResumedClock(s);
    case OnClock(_) =>
    case OnTask(k) => TaskStepClock(s, k, r);
    case OnWait(w) => WaitStepClock(s, w, r);
    case OnMutex(m) => MutexStepClock(s, m, r);
  }
}

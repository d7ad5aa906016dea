/**
 Wrapped-time arithmetic: block times measured across several waits (`vTaskSetTimeOutState`,
 `xTaskCheckForTimeOut`) and fixed-rate delays (`vTaskDelayUntil`).
 */
module Timeouts {
  import opened Modular

  /** BaseType_t is 32 bits wide; only equality of overflow counts is ever used. */
  const OVERFLOWS := 0x1_0000_0000

  /** `tick` and `overflows` are what the kernel's counters show at absolute time `now`. */
  ghost predicate Shows(tick: nat, overflows: nat, now: nat, M: nat) {
    M > 0 && tick == now % M && overflows == (now / M) % OVERFLOWS
  }

  /** Both counters determine how much later `now` is than `then`, while that is less than M. */
  lemma Elapsed(past: nat, now: nat, M: nat)
    requires M > 0 && past <= now
    ensures WrapSub(now % M, past % M, M) == (now - past) % M
    ensures now - past < M ==> (now % M >= past % M <==> now / M == past / M)
    ensures now - past < M && now % M < past % M ==> now / M == past / M + 1
    ensures now / M >= past / M
  {
    var d := now - past;
    var e, q := d % M, d / M;
    assert d == M * q + e;
    AddTurns(past + e, q, M);
    assert now == past + e + M * q;
    AddWithin(past, e, M);
    if d < M { DivUnique(d, 0, d, M); }
    assert q >= 0;
  }

  // ------------------------------------------------------------------ time outs

  class TimeOut {
    var xOverflowCount: nat
    var xTimeOnEntering: nat
    /** The absolute time the fields were set. */
    ghost var entered: nat

    ghost predicate Valid(M: nat)
      reads this
    {
      Shows(xTimeOnEntering, xOverflowCount, entered, M)
    }

    /** `vTaskSetTimeOutState`. */
    method Set(xTickCount: nat, xNumOfOverflows: nat, ghost now: nat, ghost M: nat)
      requires Shows(xTickCount, xNumOfOverflows, now, M)
      modifies this
      ensures Valid(M) && entered == now
    {
      xOverflowCount := xNumOfOverflows;
      xTimeOnEntering := xTickCount;
      entered := now;
    }

    /**
     `xTaskCheckForTimeOut`.  A wait of portMAX_DELAY never times out.  Any other has timed out, if fewer
     than M ticks have passed since the fields were set, exactly when that many ticks have passed; if not,
     the wait is cut by the ticks that have passed and measured afresh from now.
     */
    method Check(M: nat, xTickCount: nat, xNumOfOverflows: nat, xTicksToWait: nat, ghost now: nat)
      returns (expired: bool, xTicksLeft: nat)
      requires Valid(M) && Shows(xTickCount, xNumOfOverflows, now, M) && entered <= now && xTicksToWait < M
      modifies this
      ensures Valid(M)
      ensures (expired, xTicksLeft, entered) == Checked(M, old(entered), xTicksToWait, now)
    {
      Elapsed(entered, now, M);
      xTicksLeft := xTicksToWait;
      if xTicksToWait == M - 1 {
        expired := false;
      } else if xNumOfOverflows != xOverflowCount && xTickCount >= xTimeOnEntering {
        expired := true;
      } else if WrapSub(xTickCount, xTimeOnEntering, M) < xTicksToWait {
        xTicksLeft := xTicksToWait - WrapSub(xTickCount, xTimeOnEntering, M);
        Set(xTickCount, xNumOfOverflows, now, M);
        expired := false;
      } else {
        expired := true;
      }
    }
  }

  /** The answer in absolute time: whether the wait is over, what is left of it, and from when it counts. */
  function Checked(M: nat, entered: nat, wait: nat, now: nat): (bool, nat, nat)
    requires M > 0 && entered <= now && wait < M
  {
    if wait == M - 1 then (false, wait, entered)
    else if PassedAgain(M, entered, now) || (now - entered) % M >= wait then (true, wait, entered)
    else (false, wait - (now - entered) % M, now)
  }

  /** The counters show that a whole turn has gone by: the tick has come past where it was. */
  predicate PassedAgain(M: nat, entered: nat, now: nat)
    requires M > 0
  {
    (now / M) % OVERFLOWS != (entered / M) % OVERFLOWS && now % M >= entered % M
  }

  /** With fewer than M ticks between calls the check is exact. */
  lemma CheckExact(M: nat, entered: nat, wait: nat, now: nat)
    requires M > 0 && entered <= now && wait + 1 < M && now - entered < M
    ensures Checked(M, entered, wait, now).0 <==> now - entered >= wait
    ensures !Checked(M, entered, wait, now).0 ==> Checked(M, entered, wait, now) == (false, wait - (now - entered), now)
  {
    Elapsed(entered, now, M);
    DivUnique(now - entered, 0, now - entered, M);
  }

  /** From `past` to `now` it is `turns` whole turns, at least one, and then less than `span`. */
  ghost predicate TurnsAndLess(M: nat, past: nat, now: nat, span: nat, turns: nat) {
    turns >= 1 && past + M * turns <= now < past + M * turns + span
  }

  /** The extra turns do not show: the tick is below where it was, or the overflow count has come round as well. */
  ghost predicate Unseen(M: nat, entered: nat, now: nat, turns: nat)
    requires M > 0
  {
    entered % M + (now - entered - M * turns) >= M || turns % OVERFLOWS == 0
  }

  lemma OverflowsDiffer(a: nat, b: nat, turns: nat)
    requires b == a + turns
    ensures a % OVERFLOWS == b % OVERFLOWS <==> turns % OVERFLOWS == 0
  {
  }

  /** The extra turns show in the counters exactly when they are not unseen. */
  lemma TurnsShow(M: nat, entered: nat, now: nat)
    requires M > 0 && entered <= now
    ensures var d := now - entered;
      && M * (d / M) <= d && (PassedAgain(M, entered, now) <==> !Unseen(M, entered, now, d / M))
  {
    var d := now - entered;
    var q, e := d / M, d % M;
    assert d == M * q + e;
    AddTurns(entered + e, q, M);
    assert now == entered + e + M * q;
    AddWithin(entered, e, M);
    OverflowsDiffer(entered / M, now / M, now / M - entered / M);
  }

  /**
   In general, however late the call: the check goes wrong exactly when one or more whole turns of the tick
   counter, and then less than the wait, have gone by, and the turns do not show in the counters.
   */
  lemma CheckWrongWhen(M: nat, entered: nat, wait: nat, now: nat)
    requires M > 0 && entered <= now && wait + 1 < M
    ensures (Checked(M, entered, wait, now).0 <==> now - entered >= wait)
       <==> !exists q :: TurnsAndLess(M, entered, now, wait, q) && Unseen(M, entered, now, q)
  {
    hide PassedAgain, Unseen;
    var d := now - entered;
    var turns := d / M;
    assert d == M * turns + d % M;
    TurnsShow(M, entered, now);
    forall q | TurnsAndLess(M, entered, now, wait, q) ensures q == turns {
      DivUnique(d, q, d - M * q, M);
    }
    if turns >= 1 {
      assert TurnsAndLess(M, entered, now, wait, turns) <==> d % M < wait;
      MulMono(M, 1, turns);
    } else {
      DivUnique(d, 0, d, M);
      if d % M >= wait { } else { TurnsShowNone(M, entered, now); }
    }
  }

  lemma TurnsShowNone(M: nat, entered: nat, now: nat)
    requires M > 0 && entered <= now < entered + M
    ensures !PassedAgain(M, entered, now)
  {
    Elapsed(entered, now, M);
  }

  /** A late call can be missed: M + 1 ticks after tick M - 1, a wait of 5 seems to have 4 to go. */
  lemma LateCheckMisses(M: nat)
    requires M > 8
    ensures Checked(M, M - 1, 5, 2 * M) == (false, 4, 2 * M)
  {
    DivUnique(M - 1, 0, M - 1, M);
    DivUnique(2 * M, 2, 0, M);
    DivUnique(M + 1, 1, 1, M);
  }

  /** Checks one after the other, at the given times, until one reports expiry. */
  function CheckEach(M: nat, entered: nat, wait: nat, times: seq<nat>): (bool, nat, nat)
    requires M > 0 && wait < M
    requires times != [] ==> entered <= times[0]
    requires forall i :: 0 < i < |times| ==> times[i - 1] <= times[i]
    decreases |times|
  {
    if times == [] then (false, wait, entered) else
      var r := Checked(M, entered, wait, times[0]);
      if r.0 then r else
        assert forall i :: 0 < i < |times[1..]| ==> times[1..][i - 1] == times[i];
        CheckEach(M, r.2, r.1, times[1..])
  }

  /**
   Repeated checks, each fewer than M ticks after the one before: expiry is reported exactly when the ticks
   since the start reach the original wait, and until then what is left is the wait less the ticks gone by.
   */
  lemma {:induction false} ChecksAddUp(M: nat, start: nat, wait: nat, times: seq<nat>)
    requires M > 0 && 0 < wait && wait + 1 < M
    requires times != [] ==> start <= times[0] < start + M
    requires forall i :: 0 < i < |times| ==> times[i - 1] <= times[i] < times[i - 1] + M
    ensures CheckEach(M, start, wait, times).0 <==> times != [] && times[|times| - 1] - start >= wait
    ensures !CheckEach(M, start, wait, times).0 && times != [] ==>
      CheckEach(M, start, wait, times) == (false, wait - (times[|times| - 1] - start), times[|times| - 1])
    decreases |times|
  {
    if times != [] {
      var rest := times[1..];
      CheckExact(M, start, wait, times[0]);
      assert forall i :: 0 <= i < |rest| ==> rest[i] == times[i + 1];
      Rises(times, 0, |times| - 1);
      if times[0] - start < wait {
        ChecksAddUp(M, times[0], wait - (times[0] - start), rest);
        if rest != [] { assert rest[|rest| - 1] == times[|times| - 1]; }
      }
    }
  }

  lemma {:induction false} Rises(times: seq<nat>, i: nat, j: nat)
    requires i <= j < |times| && forall k :: 0 < k < |times| ==> times[k - 1] <= times[k]
    ensures times[i] <= times[j]
    decreases j - i
  {
    if i < j { Rises(times, i, j - 1); }
  }

  // ------------------------------------------------------------------ vTaskDelayUntil

  /** What a call at `now` with wake time `w` leaves as the next wake time, and for how long it sleeps, if it does. */
  ghost predicate Called(M: nat, inc: nat, w: nat, now: nat, w': nat, slept: bool, ticks: nat) {
    M > 0 && exists prev: nat ::
      && prev <= now < prev + M && prev % M == w && w' == (prev + inc) % M
      && (slept <==> (now - prev) % M < inc) && (slept ==> ticks == inc - (now - prev) % M)
  }

  /**
   `vTaskDelayUntil`, up to the call that blocks: whether and for how long to block, and the new value of
   `*pxPreviousWakeTime`.  `prev` and `now` are the absolute times the wrapped arguments stand for.
   */
  method DelayUntil(M: nat, xPreviousWakeTime: nat, xTimeIncrement: nat, xTickCount: nat, ghost prev: nat, ghost now: nat)
    returns (xShouldDelay: bool, xTicksToDelay: nat, xTimeToWake: nat)
    requires 0 < xTimeIncrement < M && prev <= now
    requires xPreviousWakeTime == prev % M && xTickCount == now % M
    ensures xTimeToWake == (prev + xTimeIncrement) % M
    ensures xShouldDelay <==> (now - prev) % M < xTimeIncrement
    ensures xShouldDelay ==> xTicksToDelay == xTimeIncrement - (now - prev) % M
    ensures now - prev < M ==> Called(M, xTimeIncrement, xPreviousWakeTime, now, xTimeToWake, xShouldDelay, xTicksToDelay)
  {
    Elapsed(prev, now, M);
    AddWithin(prev, xTimeIncrement, M);
    xShouldDelay := false;
    xTimeToWake := WrapAdd(xPreviousWakeTime, xTimeIncrement, M);
    if xTickCount < xPreviousWakeTime {
      if xTimeToWake < xPreviousWakeTime && xTimeToWake > xTickCount {
        xShouldDelay := true;
      }
    } else {
      if xTimeToWake < xPreviousWakeTime || xTimeToWake > xTickCount {
        xShouldDelay := true;
      }
    }
    xTicksToDelay := if xShouldDelay then WrapSub(xTimeToWake, xTickCount, M) else 0;
  }

  /**
   Sleeping, that is, `(now - prev) % M < inc`, is right unless the caller comes one or more whole turns, and then
   less than the increment, after its last wake time.
   */
  lemma DelayUntilWrongWhen(M: nat, prev: nat, inc: nat, now: nat)
    requires 0 < inc < M && prev <= now
    ensures ((now - prev) % M < inc <==> now < prev + inc) <==> !exists q :: TurnsAndLess(M, prev, now, inc, q)
    ensures now < prev + inc ==> inc - (now - prev) % M == prev + inc - now
  {
    var d := now - prev;
    var turns := d / M;
    assert d == M * turns + d % M;
    forall q | TurnsAndLess(M, prev, now, inc, q) ensures q == turns {
      DivUnique(d, q, d - M * q, M);
    }
    if turns >= 1 {
      assert TurnsAndLess(M, prev, now, inc, turns) <==> d % M < inc;
      MulMono(M, 1, turns);
    } else {
      DivUnique(d, 0, d, M);
    }
  }

  /** A caller exactly one turn late is put to sleep for a release long past. */
  lemma DelayUntilLate(M: nat, prev: nat, inc: nat)
    requires 0 < inc < M
    ensures var now := prev + M; now > prev + inc && (now - prev) % M < inc
  {
    DivUnique(M, 1, 0, M);
  }

  /** The `k`-th release of a task that started at `start`. */
  function Release(start: nat, inc: nat, k: nat): nat {
    start + inc * k
  }

  lemma NextRelease(start: nat, inc: nat, k: nat)
    ensures Release(start, inc, 0) == start
    ensures Release(start, inc, k + 1) == Release(start, inc, k) + inc
  {
    assert inc * (k + 1) == inc * k + inc;
  }

  /**
   A task that calls in a loop, its `k`-th call at `times[k]`: woken no earlier than it asked and never a whole
   turn late.  `wakes[k]` is the wrapped wake time it keeps.
   */
  ghost predicate Periodic(M: nat, start: nat, inc: nat, times: seq<nat>, wakes: seq<nat>, slept: seq<bool>, ticks: seq<nat>) {
    && 0 < inc < M && |wakes| == |times| + 1 && |slept| == |ticks| == |times| && wakes[0] == start % M
    && (forall k :: 0 <= k < |times| ==> Release(start, inc, k) <= times[k] < Release(start, inc, k) + M)
    && (forall k :: 0 <= k < |times| ==> Called(M, inc, wakes[k], times[k], wakes[k + 1], slept[k], ticks[k]))
  }

  /** Two times less than M before `now` that wrap to the same value are the same. */
  lemma SameWithinTurn(a: nat, b: nat, now: nat, M: nat)
    requires M > 0 && a <= now && b <= now && now - a < M && now - b < M && a % M == b % M
    ensures a == b
  {
    if a < b { AddWithin(a, b - a, M); }
    if b < a { AddWithin(b, a - b, M); }
  }

  /**
   No drift: the `k`-th call keeps the wake time start + k * increment, sleeps exactly when the next release is
   still ahead, and then for exactly the ticks up to it.
   */
  lemma {:induction false} NoDrift(M: nat, start: nat, inc: nat, times: seq<nat>, wakes: seq<nat>,
      slept: seq<bool>, ticks: seq<nat>, k: nat)
    requires Periodic(M, start, inc, times, wakes, slept, ticks) && k < |times|
    ensures wakes[k] == Release(start, inc, k) % M
    ensures slept[k] <==> times[k] < Release(start, inc, k + 1)
    ensures slept[k] ==> times[k] + ticks[k] == Release(start, inc, k + 1)
  {
    hide Release, Called;
    NextRelease(start, inc, k);
    if k > 0 {
      NoDrift(M, start, inc, times, wakes, slept, ticks, k - 1);
      CallAdvances(M, inc, Release(start, inc, k - 1), times[k - 1], wakes[k], slept[k - 1], ticks[k - 1]);
      NextRelease(start, inc, k - 1);
    }
    CallAdvances(M, inc, Release(start, inc, k), times[k], wakes[k + 1], slept[k], ticks[k]);
  }

  lemma CallAdvances(M: nat, inc: nat, prev: nat, now: nat, w': nat, slept: bool, ticks: nat)
    requires 0 < inc < M && prev <= now < prev + M && Called(M, inc, prev % M, now, w', slept, ticks)
    ensures w' == (prev + inc) % M && (slept <==> now < prev + inc) && (slept ==> now + ticks == prev + inc)
  {
    var p: nat :|
      && p <= now < p + M && p % M == prev % M && w' == (p + inc) % M
      && (slept <==> (now - p) % M < inc) && (slept ==> ticks == inc - (now - p) % M);
    SameWithinTurn(p, prev, now, M);
    DivUnique(now - prev, 0, now - prev, M);
  }
}

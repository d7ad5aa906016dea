/**
 The timer daemon of timers.c: two lists of active timers, swapped when the tick count is seen to have
 wrapped, and a bounded queue of commands.  The daemon only ever sees the tick count modulo M; `clock`
 arguments are the absolute time at which it reads it.
 */
module Timers {
  import opened Modular
  import opened Sequences
  import opened DelayedLists
  import opened TimerTracks
  import opened TimerWork
  import Timeouts

  // ------------------------------------------------------------------ the decision

  /** The test of `prvInsertTimerInActiveList`, on wrapped times. */
  predicate ExpiredAlready(M: nat, expiry: nat, now: nat, command: nat, period: nat)
    requires now < M && command < M
  {
    if expiry <= now then WrapSub(now, command, M) >= period else now < command && expiry >= command
  }

  /**
   With command time C, present time N, N - C < M, and period P, the test says yes exactly when C + P <= N;
   and when it says no, the wrapped comparison tells the epoch the expiry belongs to.
   */
  lemma ExpiredAlreadyExact(M: nat, C: nat, N: nat, P: nat)
    requires C <= N < C + M && 0 < P < M
    ensures ExpiredAlready(M, Wrapped(C + P, M), Wrapped(N, M), Wrapped(C, M), P) <==> C + P <= N
    ensures C + P > N ==>
      InEpoch(C + P, Wrapped(C + P, M), if Wrapped(C + P, M) <= Wrapped(N, M) then N / M + 1 else N / M, M)
  {
    Timeouts.Elapsed(C, N, M);
    DivUnique(N - C, 0, N - C, M);
    AddWithin(C, P, M);
    AddWithin(C, N - C, M);
    if C + P > N {
      AddWithin(N, C + P - N, M);
    }
  }

  // ------------------------------------------------------------------ lists

  /** A list of timers of epoch `e` in order of expiry. */
  ghost predicate ListOk(s: seq<TimerId>, value: map<TimerId, nat>, due: map<TimerId, nat>, e: nat, M: nat) {
    AllInEpoch(s, value, due, e, M) && Sorted(s, due) && NoDup(s)
  }

  lemma ListInsert(s: seq<TimerId>, value: map<TimerId, nat>, due: map<TimerId, nat>, e: nat, M: nat, t: TimerId, d: nat)
    requires ListOk(s, value, due, e, M) && t !in s && t in value && InEpoch(d, value[t], e, M)
    ensures forall u :: u in s ==> u in value
    ensures ListOk(SortedInsert(s, value, t), value, due[t := d], e, M)
  {
    hide SortedInsert, Sorted;
    ListSetDue(s, value, due, e, M, t, d);
    SameInsert(s, value, due[t := d], e, M, t);
    SortedInsertSorts(s, due[t := d], t);
  }

  lemma ListSetValue(s: seq<TimerId>, value: map<TimerId, nat>, due: map<TimerId, nat>, e: nat, M: nat, t: TimerId, v: nat)
    requires ListOk(s, value, due, e, M) && t !in s
    ensures ListOk(s, value[t := v], due, e, M)
  {
  }

  lemma ListSetDue(s: seq<TimerId>, value: map<TimerId, nat>, due: map<TimerId, nat>, e: nat, M: nat, t: TimerId, d: nat)
    requires ListOk(s, value, due, e, M) && t !in s
    ensures ListOk(s, value, due[t := d], e, M)
  {
  }

  lemma ListWithout(s: seq<TimerId>, value: map<TimerId, nat>, due: map<TimerId, nat>, e: nat, M: nat, t: TimerId)
    requires ListOk(s, value, due, e, M)
    ensures ListOk(Without(s, t), value, due, e, M) && t !in Without(s, t)
  {
    hide Without, Sorted, NoDup, InEpoch;
    WithoutSorted(s, due, t);
  }

  lemma HeadEarliest(s: seq<TimerId>, value: map<TimerId, nat>, due: map<TimerId, nat>, e: nat, M: nat)
    requires ListOk(s, value, due, e, M) && s != []
    ensures s[0] in s && s[0] in value && s[0] in due && InEpoch(due[s[0]], value[s[0]], e, M)
    ensures forall t :: t in s ==> t in due && due[s[0]] <= due[t]
  {
    forall t | t in s ensures due[s[0]] <= due[t] {
      var i :| 0 <= i < |s| && s[i] == t;
      assert i > 0 ==> due[s[0]] <= due[s[i]];
    }
  }

  // ------------------------------------------------------------------ the switch loop's measure

  /** How far the timers of a list are from the end of their epoch, all together. */
  function Remaining(s: seq<TimerId>, value: map<TimerId, nat>, M: nat): (r: nat)
    requires forall t :: t in s ==> t in value && value[t] < M
  {
    if s == [] then 0 else
      assert s[0] in s;
      M - value[s[0]] + Remaining(s[1..], value, M)
  }

  lemma {:induction false} RemainingSplit(a: seq<TimerId>, b: seq<TimerId>, value: map<TimerId, nat>, M: nat)
    requires forall t :: t in a + b ==> t in value && value[t] < M
    ensures (forall t :: t in a ==> t in value && value[t] < M) && (forall t :: t in b ==> t in value && value[t] < M)
    ensures Remaining(a + b, value, M) == Remaining(a, value, M) + Remaining(b, value, M)
  {
    assert forall t :: t in a || t in b ==> t in a + b;
    if a == [] {
      assert a + b == b;
    } else {
      assert (a + b)[1..] == a[1..] + b;
      RemainingSplit(a[1..], b, value, M);
    }
  }

  lemma {:induction false} RemainingSet(s: seq<TimerId>, value: map<TimerId, nat>, M: nat, t: TimerId, v: nat)
    requires (forall u :: u in s ==> u in value && value[u] < M) && t !in s
    ensures Remaining(s, value[t := v], M) == Remaining(s, value, M)
  {
    if s != [] {
      assert s[0] in s && forall u :: u in s[1..] ==> u in s;
      RemainingSet(s[1..], value, M, t, v);
    }
  }

  lemma RemainingInsert(s: seq<TimerId>, value: map<TimerId, nat>, M: nat, t: TimerId)
    requires t in value && value[t] < M && forall u :: u in s ==> u in value && value[u] < M
    ensures forall u :: u in SortedInsert(s, value, t) ==> u in value && value[u] < M
    ensures Remaining(SortedInsert(s, value, t), value, M) == Remaining(s, value, M) + M - value[t]
  {
    var p := InsertPos(s, value, value[t]);
    var a, b := s[..p], s[p..];
    SplitAround(s, p);
    InsertAtBack(a, b, 0, t);
    InsertAtFront([], b, 0, t);
    assert InsertAt(b, 0, t) == [t] + b;
    RemainingSplit(a, b, value, M);
    RemainingSplit([t], b, value, M);
    RemainingSplit(a, [t] + b, value, M);
    assert Remaining([t], value, M) == M - value[t];
  }

  /** Taking the head makes the measure fall; so does putting it back with a later value. */
  lemma ReloadFalls(s: seq<TimerId>, value: map<TimerId, nat>, M: nat, t: TimerId, v: nat)
    requires s != [] && t == s[0] && NoDup(s) && (forall u :: u in s ==> u in value && value[u] < M)
    ensures forall u :: u in Without(s, t) ==> u in value && value[u] < M
    ensures Remaining(Without(s, t), value, M) < Remaining(s, value, M)
    ensures value[t] < v < M ==>
      var value' := value[t := v];
      && (forall u :: u in SortedInsert(Without(s, t), value', t) ==> u in value' && value'[u] < M)
      && Remaining(SortedInsert(Without(s, t), value', t), value', M) < Remaining(s, value, M)
  {
    hide SortedInsert;
    WithoutHead(s);
    if value[t] < v < M {
      RemainingSet(s[1..], value, M, t, v);
      RemainingInsert(s[1..], value[t := v], M, t);
    }
  }

  lemma WithoutHead(s: seq<TimerId>)
    requires s != [] && NoDup(s)
    ensures Without(s, s[0]) == s[1..] && s[0] !in s[1..] && forall u :: u in s[1..] ==> u in s
  {
    WithoutSplit([], s[0], s[1..]);
    assert [] + [s[0]] + s[1..] == s && [] + s[1..] == s[1..];
  }

  // ------------------------------------------------------------------ the daemon's state, on values

  ghost predicate ListsOk(cur: seq<TimerId>, ovf: seq<TimerId>, value: map<TimerId, nat>, due: map<TimerId, nat>, e: nat, M: nat,
                          period: map<TimerId, nat>) {
    && ListOk(cur, value, due, e, M) && ListOk(ovf, value, due, e + 1, M)
    && (forall t :: t in cur ==> t !in ovf && t in period)
    && (forall t :: t in ovf ==> t in period)
  }

  ghost predicate TimersOk(M: nat, period: map<TimerId, nat>, reload: map<TimerId, bool>, fires: map<TimerId, seq<nat>>,
                           steady: set<TimerId>) {
    && M > 1 && (forall t :: t in period ==> 0 < period[t] < M && t in reload && t in fires)
    && (forall t :: t in steady ==> t in period && t in reload && reload[t])
  }

  ghost predicate CommandOk(M: nat, period: map<TimerId, nat>, c: Command, time: nat) {
    && M > 0 && c.timer in period
    && (c.id.Start? ==> c.value == time % M)
    && (c.id.ChangePeriod? ==> 0 < c.value < M)
  }

  ghost predicate QueueOk(M: nat, N: nat, period: map<TimerId, nat>, queue: seq<Command>, sent: seq<nat>) {
    |sent| == |queue| <= N && forall i :: 0 <= i < |sent| ==> CommandOk(M, period, queue[i], sent[i])
  }

  /** Expiries in the overflow list are less than M ticks after the last sample. */
  ghost predicate TimeOk(M: nat, xLastTime: nat, last: nat, e: nat, ovf: seq<TimerId>, due: map<TimerId, nat>) {
    && xLastTime < M && last == M * e + xLastTime
    && forall t :: t in ovf ==> t in due && due[t] < last + M
  }

  lemma ListsParts(cur: seq<TimerId>, ovf: seq<TimerId>, value: map<TimerId, nat>, due: map<TimerId, nat>, e: nat, M: nat,
                   period: map<TimerId, nat>)
    requires ListsOk(cur, ovf, value, due, e, M, period)
    ensures forall t :: t in cur || t in ovf ==> t in value && t in due && t in period && value[t] < M
    ensures forall t :: t in cur ==> t !in ovf && InEpoch(due[t], value[t], e, M)
    ensures forall t :: t in ovf ==> InEpoch(due[t], value[t], e + 1, M)
    ensures forall t :: t in cur ==> due[cur[0]] <= due[t]
  {
    if cur != [] { HeadEarliest(cur, value, due, e, M); }
  }

  lemma ListsWithout(cur: seq<TimerId>, ovf: seq<TimerId>, value: map<TimerId, nat>, due: map<TimerId, nat>, e: nat, M: nat,
                     period: map<TimerId, nat>, t: TimerId)
    requires ListsOk(cur, ovf, value, due, e, M, period)
    ensures ListsOk(Without(cur, t), Without(ovf, t), value, due, e, M, period)
    ensures t !in Without(cur, t) && t !in Without(ovf, t)
    ensures t in cur ==> Without(ovf, t) == ovf
    ensures t in ovf ==> Without(cur, t) == cur
  {
    ListWithout(cur, value, due, e, M, t);
    ListWithout(ovf, value, due, e + 1, M, t);
  }

  lemma ListsSetValue(cur: seq<TimerId>, ovf: seq<TimerId>, value: map<TimerId, nat>, due: map<TimerId, nat>, e: nat, M: nat,
                      period: map<TimerId, nat>, t: TimerId, v: nat)
    requires ListsOk(cur, ovf, value, due, e, M, period) && t !in cur && t !in ovf
    ensures ListsOk(cur, ovf, value[t := v], due, e, M, period)
  {
    ListSetValue(cur, value, due, e, M, t, v);
    ListSetValue(ovf, value, due, e + 1, M, t, v);
  }

  lemma ListsInsert(cur: seq<TimerId>, ovf: seq<TimerId>, value: map<TimerId, nat>, due: map<TimerId, nat>, e: nat, M: nat,
                    period: map<TimerId, nat>, t: TimerId, d: nat)
    requires ListsOk(cur, ovf, value, due, e, M, period) && t !in cur && t !in ovf && t in value && t in period
    ensures (forall u :: u in cur || u in ovf ==> u in value)
    ensures InEpoch(d, value[t], e, M) ==> ListsOk(SortedInsert(cur, value, t), ovf, value, due[t := d], e, M, period)
    ensures InEpoch(d, value[t], e + 1, M) ==> ListsOk(cur, SortedInsert(ovf, value, t), value, due[t := d], e, M, period)
  {
    hide SortedInsert, ListOk;
    ListValues(cur, value, due, e, M);
    ListValues(ovf, value, due, e + 1, M);
    ListSetDue(cur, value, due, e, M, t, d);
    ListSetDue(ovf, value, due, e + 1, M, t, d);
    if InEpoch(d, value[t], e, M) { ListInsert(cur, value, due, e, M, t, d); }
    if InEpoch(d, value[t], e + 1, M) { ListInsert(ovf, value, due, e + 1, M, t, d); }
  }

  lemma ListsSwap(ovf: seq<TimerId>, value: map<TimerId, nat>, due: map<TimerId, nat>, e: nat, M: nat, period: map<TimerId, nat>)
    requires ListsOk([], ovf, value, due, e, M, period)
    ensures ListsOk(ovf, [], value, due, e + 1, M, period)
  {
  }

  lemma ListsEmpty(value: map<TimerId, nat>, due: map<TimerId, nat>, e: nat, M: nat, period: map<TimerId, nat>)
    ensures ListsOk([], [], value, due, e, M, period)
  {
  }

  lemma TimerParts(M: nat, period: map<TimerId, nat>, reload: map<TimerId, bool>, fires: map<TimerId, seq<nat>>,
                   steady: set<TimerId>, t: TimerId)
    requires TimersOk(M, period, reload, fires, steady) && t in period
    ensures M > 1 && 0 < period[t] < M && t in reload && t in fires
    ensures t in steady ==> reload[t]
    ensures TimersOk(M, period, reload, fires, steady - {t})
    ensures reload[t] ==> TimersOk(M, period, reload, fires, steady + {t})
  {
  }

  lemma TimerFires(M: nat, period: map<TimerId, nat>, reload: map<TimerId, bool>, fires: map<TimerId, seq<nat>>,
                   steady: set<TimerId>, t: TimerId, f: seq<nat>)
    requires TimersOk(M, period, reload, fires, steady)
    ensures TimersOk(M, period, reload, fires[t := f], steady)
    ensures TimersOk(M, period, reload, fires[t := f], steady - {t})
  {
  }

  lemma QueueParts(M: nat, N: nat, period: map<TimerId, nat>, queue: seq<Command>, sent: seq<nat>)
    requires QueueOk(M, N, period, queue, sent) && queue != []
    ensures |sent| == |queue| && CommandOk(M, period, queue[0], sent[0]) && QueueOk(M, N, period, queue[1..], sent[1..])
  {
  }

  lemma QueueGrows(M: nat, N: nat, period: map<TimerId, nat>, queue: seq<Command>, sent: seq<nat>, c: Command, time: nat)
    requires QueueOk(M, N, period, queue, sent) && CommandOk(M, period, c, time) && |queue| < N
    ensures QueueOk(M, N, period, queue + [c], sent + [time])
  {
  }

  lemma QueueMorePeriods(M: nat, N: nat, period: map<TimerId, nat>, queue: seq<Command>, sent: seq<nat>, t: TimerId, p: nat)
    requires QueueOk(M, N, period, queue, sent)
    ensures QueueOk(M, N, period[t := p], queue, sent)
  {
  }

  // ------------------------------------------------------------------ the daemon

  /** What `prvProcessTimerOrBlockTask` came to. */
  datatype Outcome = Ran | Switched | Blocks(ticks: nat, forEver: bool)

  class TimerDaemon {
    const M: nat
    /** configTIMER_QUEUE_LENGTH. */
    const N: nat

    var xActiveTimerList1: seq<TimerId>
    var xActiveTimerList2: seq<TimerId>
    /** `pxCurrentTimerList == &xActiveTimerList1`; the overflow pointer names the other list. */
    var firstIsCurrent: bool
    var itemValue: map<TimerId, nat>
    var xTimerPeriodInTicks: map<TimerId, nat>
    var uxAutoReload: map<TimerId, bool>
    var xLastTime: nat
    var xTimerQueue: seq<Command>

    /** In absolute time: the last sample, the latest time known to have come, and the current list's epoch. */
    ghost var last: nat
    ghost var seen: nat
    ghost var epoch: nat
    /** The rest of the book (module TimerTracks). */
    ghost var due: map<TimerId, nat>
    ghost var sent: seq<nat>
    ghost var start: map<TimerId, nat>
    ghost var fires: map<TimerId, seq<nat>>
    ghost var steady: set<TimerId>
    /** How many commands found the queue full. */
    ghost var refused: nat

    // ---------------------------------------------------------------- validity

    function Current(): seq<TimerId>
      reads `firstIsCurrent, `xActiveTimerList1, `xActiveTimerList2
    {
      if firstIsCurrent then xActiveTimerList1 else xActiveTimerList2
    }

    function Overflow(): seq<TimerId>
      reads `firstIsCurrent, `xActiveTimerList1, `xActiveTimerList2
    {
      if firstIsCurrent then xActiveTimerList2 else xActiveTimerList1
    }

    ghost function B(): Book
      reads this
    {
      Book(M, xTimerPeriodInTicks, (set t | t in Current()) + (set t | t in Overflow()), due, xTimerQueue, sent, start, fires,
           steady, seen)
    }

    ghost function V(): View
      reads this
    {
      View(B(), refused)
    }

    ghost predicate ListsValid()
      reads `firstIsCurrent, `xActiveTimerList1, `xActiveTimerList2, `itemValue, `due, `epoch, `xTimerPeriodInTicks
    {
      ListsOk(Current(), Overflow(), itemValue, due, epoch, M, xTimerPeriodInTicks)
    }

    /** Timers, lists, commands and tracks are in order, whatever the time. */
    ghost predicate Orderly()
      reads this
    {
      && TimersOk(M, xTimerPeriodInTicks, uxAutoReload, fires, steady) && ListsValid()
      && QueueOk(M, N, xTimerPeriodInTicks, xTimerQueue, sent) && AllOnTrack(B())
    }

    ghost predicate Valid()
      reads this
    {
      Orderly() && TimeOk(M, xLastTime, last, epoch, Overflow(), due) && seen == last
    }

    constructor (M: nat, N: nat)
      requires M > 1
      ensures Valid() && this.M == M && this.N == N && last == 0 && steady == {} && xTimerQueue == []
    {
      this.M, this.N := M, N;
      xActiveTimerList1, xActiveTimerList2, firstIsCurrent, itemValue := [], [], true, map[];
      xTimerPeriodInTicks, uxAutoReload, xLastTime, xTimerQueue := map[], map[], 0, [];
      last, seen, epoch, due, sent, start, fires, steady, refused := 0, 0, 0, map[], [], map[], map[], {}, 0;
    }

    /** `prvInitialiseNewTimer`: a dormant timer. */
    method CreateTimer(t: TimerId, period: nat, autoReload: bool)
      requires Valid() && t !in xTimerPeriodInTicks && 0 < period < M
      modifies `xTimerPeriodInTicks, `uxAutoReload, `fires
      ensures Valid() && xTimerPeriodInTicks == old(xTimerPeriodInTicks)[t := period] && Turned(old(V()), V(), {t})
      ensures uxAutoReload == old(uxAutoReload)[t := autoReload] && fires == old(fires)[t := []]
    {
      hide Current, Overflow, AllOnTrack, ListsOk, QueueOk, TimeOk, TimersOk, Turned;
      ghost var v := V();
      NewTimer(B(), t, period, uxAutoReload, autoReload);
      NewTimerLists(Current(), Overflow(), itemValue, due, epoch, M, xTimerPeriodInTicks, t, period);
      QueueMorePeriods(M, N, xTimerPeriodInTicks, xTimerQueue, sent, t, period);
      xTimerPeriodInTicks := xTimerPeriodInTicks[t := period];
      uxAutoReload := uxAutoReload[t := autoReload];
      fires := fires[t := []];
      CommandTurn(v, V(), t, start, fires);
    }

    // ---------------------------------------------------------------- commands

    /** `xTimerGenericCommand` without a block time: false when the queue is full. */
    method GenericCommand(c: Command, ghost time: nat) returns (xReturn: bool)
      requires QueueOk(M, N, xTimerPeriodInTicks, xTimerQueue, sent) && CommandOk(M, xTimerPeriodInTicks, c, time)
      modifies `xTimerQueue, `sent, `refused
      ensures QueueOk(M, N, xTimerPeriodInTicks, xTimerQueue, sent) && xReturn == (|old(xTimerQueue)| < N)
      ensures xReturn ==> B() == Sent(old(B()), c, time)
      ensures !xReturn ==> B() == old(B())
      ensures refused == if xReturn then old(refused) else old(refused) + 1
      ensures forall u :: u != c.timer && NotQueued(old(xTimerQueue), u) ==> NotQueued(xTimerQueue, u)
    {
      xReturn := |xTimerQueue| < N;
      if xReturn {
        QueueGrows(M, N, xTimerPeriodInTicks, xTimerQueue, sent, c, time);
        SentSpares(xTimerQueue, sent, c, time);
        xTimerQueue := xTimerQueue + [c];
        sent := sent + [time];
      } else {
        refused := refused + 1;
      }
    }

    /** From here on the callback of `t` is to run once for each period after `clock`. */
    ghost method Promise(t: TimerId, clock: nat)
      requires TimersOk(M, xTimerPeriodInTicks, uxAutoReload, fires, steady)
      requires t in xTimerPeriodInTicks && t in uxAutoReload && uxAutoReload[t]
      modifies `start, `fires, `steady
      ensures TimersOk(M, xTimerPeriodInTicks, uxAutoReload, fires, steady)
      ensures start == old(start)[t := clock] && fires == old(fires)[t := []] && steady == old(steady) + {t}
    {
      hide TimersOk;
      TimerFires(M, xTimerPeriodInTicks, uxAutoReload, fires, steady, t, []);
      TimerParts(M, xTimerPeriodInTicks, uxAutoReload, fires[t := []], steady, t);
      start := start[t := clock];
      fires := fires[t := []];
      steady := steady + {t};
    }

    ghost method Withdraw(t: TimerId)
      requires TimersOk(M, xTimerPeriodInTicks, uxAutoReload, fires, steady) && t in xTimerPeriodInTicks
      modifies `steady
      ensures TimersOk(M, xTimerPeriodInTicks, uxAutoReload, fires, steady) && steady == old(steady) - {t}
    {
      hide TimersOk;
      TimerParts(M, xTimerPeriodInTicks, uxAutoReload, fires, steady, t);
      steady := steady - {t};
    }

    /** `pxCallbackFunction`, for the expiry at `e`. */
    ghost method RunCallback(t: TimerId, e: nat)
      requires TimersOk(M, xTimerPeriodInTicks, uxAutoReload, fires, steady) && t in fires
      modifies `fires
      ensures TimersOk(M, xTimerPeriodInTicks, uxAutoReload, fires, steady) && fires == old(fires)[t := old(fires)[t] + [e]]
      ensures B() == Fired(old(B()), t, e) && Grows(old(fires), fires)
    {
      hide Current, Overflow, TimersOk, Grows;
      GrowsOne(fires, t, e);
      TimerFires(M, xTimerPeriodInTicks, uxAutoReload, fires, steady, t, fires[t] + [e]);
      fires := fires[t := fires[t] + [e]];
    }

    /** `xTimerStart` and `xTimerReset`, called at time `clock`. */
    method StartTimer(t: TimerId, clock: nat) returns (xReturn: bool)
      requires Valid() && t in xTimerPeriodInTicks
      modifies `xTimerQueue, `sent, `refused, `start, `fires, `steady
      ensures Valid() && xReturn == (|old(xTimerQueue)| < N)
      ensures xReturn && t in uxAutoReload && uxAutoReload[t] && Idle(old(B()), t) ==>
        t in steady && t in start && start[t] == clock && t in fires && fires[t] == []
      ensures Turned(old(V()), V(), {t}) && (xReturn ==> refused == old(refused))
      ensures xTimerQueue == if xReturn then old(xTimerQueue) + [Command(Start, t, clock % M)] else old(xTimerQueue)
      ensures sent == if xReturn then old(sent) + [clock] else old(sent)
      ensures forall u :: u in old(steady) && u != t ==> u in steady && u in fires && u in old(fires) && fires[u] == old(fires)[u]
    {
      hide Current, Overflow, AllOnTrack, ListsOk, QueueOk, TimeOk, TimersOk, Turned;
      ghost var b, v := B(), V();
      TracksKnown(b);
      TimerParts(M, xTimerPeriodInTicks, uxAutoReload, fires, steady, t);
      var c := Command(Start, t, clock % M);
      xReturn := GenericCommand(c, clock);
      if xReturn {
        if uxAutoReload[t] && Idle(b, t) {
          Promise(t, clock);
          StartIdle(b, t, c, clock);
          assert B() == Started(b, t, c, clock);
        } else {
          Withdraw(t);
          Forgo(b, t);
          OtherSent(b.(steady := b.steady - {t}), c, clock);
          assert B() == Sent(b.(steady := b.steady - {t}), c, clock);
        }
      }
      CommandTurn(v, V(), t, start, fires);
    }

    /** Any other command ends what is promised of the timer. */
    method OtherCommand(c: Command, clock: nat) returns (xReturn: bool)
      requires Valid() && CommandOk(M, xTimerPeriodInTicks, c, clock) && c.id != Start
      modifies `xTimerQueue, `sent, `refused, `steady
      ensures Valid() && xReturn == (|old(xTimerQueue)| < N) && steady == old(steady) - {c.timer}
      ensures Turned(old(V()), V(), {c.timer}) && (xReturn ==> refused == old(refused))
      ensures xTimerQueue == if xReturn then old(xTimerQueue) + [c] else old(xTimerQueue)
      ensures sent == if xReturn then old(sent) + [clock] else old(sent)
    {
      hide Current, Overflow, AllOnTrack, ListsOk, QueueOk, TimeOk, TimersOk, Turned;
      ghost var b, v := B(), V();
      TimerParts(M, xTimerPeriodInTicks, uxAutoReload, fires, steady, c.timer);
      steady := steady - {c.timer};
      Forgo(b, c.timer);
      assert B() == b.(steady := b.steady - {c.timer});
      OtherSent(B(), c, clock);
      xReturn := GenericCommand(c, clock);
      CommandTurn(v, V(), c.timer, start, fires);
    }

    // ---------------------------------------------------------------- the lists

    /** `vListInsert( pxCurrentTimerList, ... )`. */
    method InsertInCurrent(t: TimerId, ghost d: nat)
      requires ListsValid() && t in itemValue && t in xTimerPeriodInTicks && t !in Current() && t !in Overflow()
      requires InEpoch(d, itemValue[t], epoch, M)
      modifies `xActiveTimerList1, `xActiveTimerList2, `due
      ensures ListsValid() && Overflow() == old(Overflow()) && B() == Listed(old(B()), t, d)
      ensures (forall u :: u in old(Current()) ==> u in itemValue) && Current() == SortedInsert(old(Current()), itemValue, t)
    {
      hide ListsOk, SortedInsert;
      ListsInsert(Current(), Overflow(), itemValue, due, epoch, M, xTimerPeriodInTicks, t, d);
      due := due[t := d];
      if firstIsCurrent {
        xActiveTimerList1 := SortedInsert(xActiveTimerList1, itemValue, t);
      } else {
        xActiveTimerList2 := SortedInsert(xActiveTimerList2, itemValue, t);
      }
    }

    /** `vListInsert( pxOverflowTimerList, ... )`. */
    method InsertInOverflow(t: TimerId, ghost d: nat)
      requires ListsValid() && t in itemValue && t in xTimerPeriodInTicks && t !in Current() && t !in Overflow()
      requires InEpoch(d, itemValue[t], epoch + 1, M)
      modifies `xActiveTimerList1, `xActiveTimerList2, `due
      ensures ListsValid() && Current() == old(Current()) && B() == Listed(old(B()), t, d)
      ensures forall u :: u in Overflow() <==> u == t || u in old(Overflow())
    {
      hide ListsOk, SortedInsert;
      ListsInsert(Current(), Overflow(), itemValue, due, epoch, M, xTimerPeriodInTicks, t, d);
      due := due[t := d];
      if firstIsCurrent {
        xActiveTimerList2 := SortedInsert(xActiveTimerList2, itemValue, t);
      } else {
        xActiveTimerList1 := SortedInsert(xActiveTimerList1, itemValue, t);
      }
    }

    /** `prvInsertTimerInActiveList`: true exactly when `C + period` has passed; otherwise the timer is listed. */
    method InsertTimerInActiveList(t: TimerId, xNextExpiryTime: nat, xTimeNow: nat, xCommandTime: nat, ghost C: nat)
      returns (xProcessTimerNow: bool)
      requires ListsValid() && TimeOk(M, xLastTime, last, epoch, Overflow(), due) && xTimeNow == xLastTime
      requires t in xTimerPeriodInTicks && t !in Current() && t !in Overflow() && 0 < xTimerPeriodInTicks[t] < M
      requires C <= last < C + M && xCommandTime == C % M && xNextExpiryTime == (C + xTimerPeriodInTicks[t]) % M
      modifies `xActiveTimerList1, `xActiveTimerList2, `itemValue, `due
      ensures ListsValid() && TimeOk(M, xLastTime, last, epoch, Overflow(), due)
      ensures xProcessTimerNow <==> C + xTimerPeriodInTicks[t] <= last
      ensures xProcessTimerNow ==> B() == old(B())
      ensures !xProcessTimerNow ==> B() == Listed(old(B()), t, C + xTimerPeriodInTicks[t])
    {
      hide Current, Overflow, ListsOk;
      DivUnique(last, epoch, xLastTime, M);
      ExpiredAlreadyExact(M, C, last, xTimerPeriodInTicks[t]);
      ListsSetValue(Current(), Overflow(), itemValue, due, epoch, M, xTimerPeriodInTicks, t, xNextExpiryTime);
      itemValue := itemValue[t := xNextExpiryTime];
      xProcessTimerNow := false;
      if xNextExpiryTime <= xTimeNow {
        if WrapSub(xTimeNow, xCommandTime, M) >= xTimerPeriodInTicks[t] {
          xProcessTimerNow := true;
        } else {
          InsertInOverflow(t, C + xTimerPeriodInTicks[t]);
        }
      } else {
        if xTimeNow < xCommandTime && xNextExpiryTime >= xCommandTime {
          xProcessTimerNow := true;
        } else {
          InsertInCurrent(t, C + xTimerPeriodInTicks[t]);
        }
      }
    }

    /** `uxListRemove( &( pxTimer->xTimerListItem ) )`. */
    method ListRemove(t: TimerId)
      requires ListsValid() && (t in Current() || t in Overflow())
      modifies `xActiveTimerList1, `xActiveTimerList2
      ensures ListsValid() && B() == Delisted(old(B()), t) && t !in Current() && t !in Overflow()
      ensures Current() == Without(old(Current()), t) && Overflow() == Without(old(Overflow()), t)
    {
      hide ListsOk;
      ListsWithout(Current(), Overflow(), itemValue, due, epoch, M, xTimerPeriodInTicks, t);
      ListsParts(Current(), Overflow(), itemValue, due, epoch, M, xTimerPeriodInTicks);
      if t in xActiveTimerList1 {
        xActiveTimerList1 := Without(xActiveTimerList1, t);
      } else {
        xActiveTimerList2 := Without(xActiveTimerList2, t);
      }
    }

    /** An expired timer's auto-reload by command; when the queue is full, nothing more is promised of it. */
    method RestartByCommand(t: TimerId, xNextExpireTime: nat, ghost e: nat)
      requires QueueOk(M, N, xTimerPeriodInTicks, xTimerQueue, sent) && M > 0 && t in xTimerPeriodInTicks && xNextExpireTime == e % M
      requires TimersOk(M, xTimerPeriodInTicks, uxAutoReload, fires, steady)
      modifies `xTimerQueue, `sent, `refused, `steady
      ensures QueueOk(M, N, xTimerPeriodInTicks, xTimerQueue, sent)
      ensures TimersOk(M, xTimerPeriodInTicks, uxAutoReload, fires, steady)
      ensures B() == Resent(old(B()), N, Command(Start, t, xNextExpireTime), e)
      ensures if |old(xTimerQueue)| < N then steady == old(steady) && refused == old(refused)
              else steady == old(steady) - {t} && refused == old(refused) + 1
    {
      hide Current, Overflow, QueueOk, NotQueued, TimersOk;
      TimerParts(M, xTimerPeriodInTicks, uxAutoReload, fires, steady, t);
      var xResult := GenericCommand(Command(Start, t, xNextExpireTime), e);
      if !xResult {
        steady := steady - {t};
      }
    }

    /** The head of the current list comes off it and its callback runs. */
    method ExpireHead() returns (t: TimerId, xNextExpireTime: nat)
      requires Orderly() && Current() != []
      modifies `xActiveTimerList1, `xActiveTimerList2, `fires
      ensures t == old(Current())[0] && t in itemValue && t in due && xNextExpireTime == itemValue[t]
      ensures t in xTimerPeriodInTicks && t in uxAutoReload && Entered(old(B()), t) && InEpoch(due[t], xNextExpireTime, epoch, M)
      ensures ListsValid() && TimersOk(M, xTimerPeriodInTicks, uxAutoReload, fires, steady)
      ensures Current() == Without(old(Current()), t) && Overflow() == old(Overflow()) && t !in Current() && t !in Overflow()
      ensures B() == Fired(Delisted(old(B()), t), t, due[t])
      ensures t in old(fires) && fires == old(fires)[t := old(fires)[t] + [due[t]]]
      ensures t in steady ==> uxAutoReload[t]
      ensures Grows(old(fires), fires)
    {
      hide Current, Overflow, ListsOk, AllOnTrack, TimersOk, QueueOk, Grows;
      t := Current()[0];
      ListsParts(Current(), Overflow(), itemValue, due, epoch, M, xTimerPeriodInTicks);
      ListsWithout(Current(), Overflow(), itemValue, due, epoch, M, xTimerPeriodInTicks, t);
      TimerParts(M, xTimerPeriodInTicks, uxAutoReload, fires, steady, t);
      xNextExpireTime := itemValue[t];
      ListRemove(t);
      RunCallback(t, due[t]);
    }

    // ---------------------------------------------------------------- the wrap

    ghost function Left(): nat
      reads this
      requires ListsValid()
    {
      ListsParts(Current(), Overflow(), itemValue, due, epoch, M, xTimerPeriodInTicks);
      Remaining(Current(), itemValue, M)
    }

    /** Put back in the current list, to expire again in this epoch. */
    method ReloadInCurrent(t: TimerId, xReloadTime: nat, ghost d: nat)
      requires ListsValid() && t in xTimerPeriodInTicks && t !in Current() && t !in Overflow() && InEpoch(d, xReloadTime, epoch, M)
      modifies `xActiveTimerList1, `xActiveTimerList2, `itemValue, `due
      ensures ListsValid() && Overflow() == old(Overflow()) && B() == Listed(old(B()), t, d)
      ensures itemValue == old(itemValue)[t := xReloadTime] && forall u :: u in old(Current()) ==> u in itemValue
      ensures Current() == SortedInsert(old(Current()), itemValue, t)
    {
      hide Current, Overflow, ListsOk, SortedInsert;
      ListsSetValue(Current(), Overflow(), itemValue, due, epoch, M, xTimerPeriodInTicks, t, xReloadTime);
      itemValue := itemValue[t := xReloadTime];
      InsertInCurrent(t, d);
    }

    /** The reload by command of timer `t`, that book `b` had listed and that has just been fired. */
    method ResendExpired(t: TimerId, xNextExpireTime: nat, ghost b: Book)
      requires AllOnTrack(b) && Entered(b, t) && InEpoch(b.due[t], xNextExpireTime, epoch, M)
      requires B() == Fired(Delisted(b, t), t, b.due[t])
      requires ListsValid() && TimersOk(M, xTimerPeriodInTicks, uxAutoReload, fires, steady)
      requires QueueOk(M, N, xTimerPeriodInTicks, xTimerQueue, sent)
      modifies `xTimerQueue, `sent, `refused, `steady
      ensures Orderly() && SpareOthers(b, B(), t) && M > 0 && B() == Restarted(old(B()), N, t, b.due[t])
      ensures refused >= old(refused) && (refused == old(refused) ==> old(steady) <= steady) && steady <= old(steady)
    {
      hide Current, Overflow, ListsOk, AllOnTrack, TimersOk, QueueOk, SpareOthers, Resent;
      DivUnique(b.due[t], epoch, xNextExpireTime, M);
      RestartByCommand(t, xNextExpireTime, b.due[t]);
      RestartTracks(b, N, t, Command(Start, t, xNextExpireTime));
    }

    /** Its reload into the current list, when it is due again in this epoch. */
    method RelistExpired(t: TimerId, xReloadTime: nat, ghost b: Book)
      requires AllOnTrack(b) && Entered(b, t) && b.due[t] <= b.seen && InEpoch(b.due[t] + b.period[t], xReloadTime, epoch, M)
      requires B() == Fired(Delisted(b, t), t, b.due[t])
      requires ListsValid() && TimersOk(M, xTimerPeriodInTicks, uxAutoReload, fires, steady) && t !in Current() && t !in Overflow()
      requires QueueOk(M, N, xTimerPeriodInTicks, xTimerQueue, sent)
      modifies `xActiveTimerList1, `xActiveTimerList2, `itemValue, `due
      ensures Orderly() && SpareOthers(b, B(), t) && Overflow() == old(Overflow())
      ensures B() == Listed(old(B()), t, b.due[t] + b.period[t])
      ensures itemValue == old(itemValue)[t := xReloadTime] && forall u :: u in old(Current()) ==> u in itemValue
      ensures Current() == SortedInsert(old(Current()), itemValue, t)
    {
      hide Current, Overflow, ListsOk, AllOnTrack, TimersOk, QueueOk, SpareOthers, Listed, SortedInsert;
      ReloadInCurrent(t, xReloadTime, b.due[t] + b.period[t]);
      ReloadTracks(b, t);
    }

    /** The reload of a timer that has expired in the old epoch: in the list if it is due in it again, else by command. */
    method ReloadBeforeSwitch(t: TimerId, xNextExpireTime: nat, ghost b: Book)
      requires AllOnTrack(b) && Entered(b, t) && b.due[t] <= b.seen && InEpoch(b.due[t], xNextExpireTime, epoch, M)
      requires B() == Fired(Delisted(b, t), t, b.due[t])
      requires ListsValid() && TimersOk(M, xTimerPeriodInTicks, uxAutoReload, fires, steady) && t !in Current() && t !in Overflow()
      requires QueueOk(M, N, xTimerPeriodInTicks, xTimerQueue, sent)
      modifies `xActiveTimerList1, `xActiveTimerList2, `itemValue, `due, `xTimerQueue, `sent, `refused, `steady
      ensures Orderly() && Overflow() == old(Overflow()) && SpareOthers(b, B(), t) && M > 0
      ensures refused >= old(refused) && (refused == old(refused) ==> old(steady) <= steady) && steady <= old(steady)
      ensures if b.due[t] + b.period[t] < M * (epoch + 1)
        then B() == Listed(old(B()), t, b.due[t] + b.period[t]) && itemValue == old(itemValue)[t := xNextExpireTime + b.period[t]]
          && xNextExpireTime < itemValue[t] < M
          && (forall u :: u in old(Current()) ==> u in itemValue) && Current() == SortedInsert(old(Current()), itemValue, t)
        else B() == Restarted(old(B()), N, t, b.due[t]) && itemValue == old(itemValue) && Current() == old(Current())
    {
      hide Current, Overflow, ListsOk, AllOnTrack, TimersOk, QueueOk, SpareOthers, Listed, Restarted, SortedInsert;
      TimerParts(M, xTimerPeriodInTicks, uxAutoReload, fires, steady, t);
      NextEpoch(epoch, M);
      var xReloadTime := WrapAdd(xNextExpireTime, xTimerPeriodInTicks[t], M);
      if xReloadTime > xNextExpireTime {
        RelistExpired(t, xReloadTime, b);
      } else {
        ResendExpired(t, xNextExpireTime, b);
      }
    }

    /** One turn of `prvSwitchTimerLists`: the head, of the old epoch, expires and is reloaded. */
    method ExpireBeforeSwitch()
      requires Orderly() && Current() != [] && M * (epoch + 1) <= seen
      modifies `xActiveTimerList1, `xActiveTimerList2, `itemValue, `due, `xTimerQueue, `sent, `refused, `fires, `steady
      ensures Orderly() && Overflow() == old(Overflow()) && Left() < old(Left())
      ensures forall u :: u in Current() ==> u in old(Current())
      ensures SpareOthers(old(B()), B(), old(Current())[0])
      ensures refused >= old(refused) && (refused == old(refused) ==> old(steady) <= steady)
      ensures Grows(old(fires), fires) && steady <= old(steady) && M > 0
      ensures var t := old(Current())[0];
        && t in uxAutoReload && Entered(old(B()), t) && old(B()).due[t] <= seen
        && B() == Expired(old(B()), N, uxAutoReload[t], old(B()).due[t] + old(B()).period[t] < M * (epoch + 1), t)
    {
      hide Current, Overflow, ListsOk, AllOnTrack, SortedInsert,
          TimersOk, QueueOk, Remaining, SpareOthers, Fired, Delisted, Listed, Restarted, Expired, Without, NoDup, Grows;
      ghost var b := B();
      TimersPositive(M, xTimerPeriodInTicks, uxAutoReload, fires, steady);
      NextEpoch(epoch, M);
      ListsFall(Current(), Overflow(), itemValue, due, epoch, M, xTimerPeriodInTicks);
      ListsParts(Current(), Overflow(), itemValue, due, epoch, M, xTimerPeriodInTicks);
      var t, xNextExpireTime := ExpireHead();
      ExpiredCases(b, N, t);
      if uxAutoReload[t] {
        ReloadBeforeSwitch(t, xNextExpireTime, b);
        if b.due[t] + b.period[t] < M * (epoch + 1) {
          ReloadFall(old(Current()), old(itemValue), M, t, itemValue[t]);
        }
      } else {
        OneShotTracks(b, t);
      }
    }

    /** `prvSwitchTimerLists`: afterwards no expiry of the old epoch is left. */
    method SwitchTimerLists()
      requires Orderly() && M * (epoch + 1) <= seen
      modifies `xActiveTimerList1, `xActiveTimerList2, `itemValue, `due, `xTimerQueue, `sent, `refused,
          `fires, `steady, `firstIsCurrent, `epoch
      ensures Orderly() && epoch == old(epoch) + 1 && Current() == old(Overflow()) && Overflow() == []
      ensures forall u :: u !in old(Current()) ==> SpareOne(old(B()), B(), u)
      ensures forall u :: u in old(Current()) ==> CaughtUp(old(B()), B(), u)
      ensures refused >= old(refused) && (refused == old(refused) ==> old(steady) <= steady)
      ensures Grows(old(fires), fires) && steady <= old(steady) && (Fresh(old(B())) ==> Fresh(B()))
    {
      hide ListsOk, AllOnTrack, TimersOk, QueueOk, NotQueued, Remaining, SpareOne, Grows, Fresh, Expired, CaughtUp, Waiting;
      ghost var b, cur := B(), Current();
      SpareSelf(b);
      GrowsSelf(fires);
      AllEntered(Current(), Overflow(), itemValue, due, epoch, M, xTimerPeriodInTicks, uxAutoReload, fires, steady, b);
      while Current() != []
        invariant Orderly() && Overflow() == old(Overflow()) && epoch == old(epoch)
        invariant forall u :: u in Current() ==> u in cur
        invariant forall u :: u !in cur ==> SpareOne(b, B(), u)
        invariant refused >= old(refused) && (refused == old(refused) ==> old(steady) <= steady)
        invariant forall u :: u in cur ==> CaughtUp(b, B(), u) || Waiting(b, B(), u)
        invariant Grows(old(fires), fires) && steady <= old(steady) && (Fresh(b) ==> Fresh(B()))
        decreases Left()
      {
        ghost var m := B();
        assert Current()[0] in cur;
        ghost var t := Current()[0];
        ExpireBeforeSwitch();
        ghost var relist := m.due[t] + m.period[t] < M * (epoch + 1);
        if Fresh(m) { ExpiredFresh(m, N, uxAutoReload[t], relist, t); }
        forall u | u in cur ensures CaughtUp(b, B(), u) || Waiting(b, B(), u) {
          ExpiredTurn(b, m, N, uxAutoReload[t], relist, t, u);
        }
        GrowsTrans(old(fires), m.fires, fires);
        SpareTrans(b, m, B(), cur);
      }
      ListsSwap(Overflow(), itemValue, due, epoch, M, xTimerPeriodInTicks);
      ghost var d := B();
      forall u | u in cur ensures CaughtUp(b, B(), u) {
        NotWaiting(b, d, u);
      }
      firstIsCurrent := !firstIsCurrent;
      epoch := epoch + 1;
      assert B() == d;
    }

    /** The sample is kept; with no timer listed, the epoch is that of the sample, however late it is. */
    method KeepSample(clock: nat)
      requires Orderly() && M > 0 && seen == clock
      requires Current() != [] || Overflow() != [] ==> epoch == clock / M
      requires forall t :: t in Overflow() ==> t in due && due[t] < clock + M
      modifies `epoch, `last, `xLastTime
      ensures Valid() && last == clock && xLastTime == clock % M
    {
      hide Current, Overflow, ListsOk, AllOnTrack, TimersOk, QueueOk;
      if Current() == [] && Overflow() == [] {
        ListsEmpty(itemValue, due, clock / M, M, xTimerPeriodInTicks);
        epoch := clock / M;
      }
      xLastTime := clock % M;
      last := clock;
    }

    /** `prvSampleTimeNow`, at time `clock`: the lists are switched exactly when the tick count has wrapped. */
    method SampleTimeNow(clock: nat) returns (xTimeNow: nat, xTimerListsWereSwitched: bool)
      requires Valid() && last <= clock && (Current() != [] || Overflow() != [] ==> clock < last + M)
      modifies `xActiveTimerList1, `xActiveTimerList2, `itemValue, `due, `xTimerQueue, `sent, `refused,
          `fires, `steady, `firstIsCurrent, `epoch, `seen, `last, `xLastTime
      ensures Valid() && last == clock && xTimeNow == xLastTime == clock % M
      ensures xTimerListsWereSwitched <==> clock % M < old(last) % M
      ensures !xTimerListsWereSwitched ==> Current() == old(Current()) && Overflow() == old(Overflow()) && B() == old(B()).(seen := clock)
      ensures !xTimerListsWereSwitched ==> itemValue == old(itemValue)
      ensures xTimerListsWereSwitched ==> Current() == old(Overflow()) && Overflow() == []
      ensures forall u :: u !in old(Current()) ==> SpareOne(old(B()).(seen := clock), B(), u)
      ensures xTimerListsWereSwitched ==> forall u :: u in old(Current()) ==> CaughtUp(old(B()), B(), u)
      ensures refused >= old(refused) && (refused == old(refused) ==> old(steady) <= steady) && steady <= old(steady)
      ensures Grows(old(fires), fires) && (Fresh(old(B()).(seen := clock)) ==> Fresh(B()))
    {
      hide Current, Overflow, ListsOk, AllOnTrack, TimersOk, QueueOk, NotQueued, SpareOne, Grows, Fresh;
      ghost var b := B();
      assert M > 0 by { TimersPositive(M, xTimerPeriodInTicks, uxAutoReload, fires, steady); }
      DivUnique(last, epoch, xLastTime, M);
      SampleEpoch(M, last, clock);
      SeeLater(b, clock);
      seen := clock;
      SpareSelf(B());
      GrowsSelf(fires);
      xTimeNow := clock % M;
      xTimerListsWereSwitched := false;
      if xTimeNow < xLastTime {
        SwitchTimerLists();
        xTimerListsWereSwitched := true;
      }
      KeepSample(clock);
    }

    // ---------------------------------------------------------------- expiry

    /** The reload of `prvProcessExpiredTimer`, for timer `t` that book `b` had listed and that has just been fired. */
    method ReloadExpired(t: TimerId, xNextExpireTime: nat, xTimeNow: nat, ghost b: Book)
      requires AllOnTrack(b) && Entered(b, t) && b.due[t] <= last == b.seen && InEpoch(b.due[t], xNextExpireTime, epoch, M)
      requires B() == Fired(Delisted(b, t), t, b.due[t])
      requires ListsValid() && t !in Current() && t !in Overflow() && TimeOk(M, xLastTime, last, epoch, Overflow(), due)
      requires TimersOk(M, xTimerPeriodInTicks, uxAutoReload, fires, steady) && QueueOk(M, N, xTimerPeriodInTicks, xTimerQueue, sent)
      requires xTimeNow == xLastTime && t in uxAutoReload && uxAutoReload[t]
      modifies `xActiveTimerList1, `xActiveTimerList2, `itemValue, `due, `xTimerQueue, `sent, `refused, `steady
      ensures Valid() && SpareOthers(b, B(), t) && M > 0
      ensures refused >= old(refused) && (refused == old(refused) ==> old(steady) <= steady) && steady <= old(steady)
      ensures B() == if b.due[t] + b.period[t] > last then Listed(old(B()), t, b.due[t] + b.period[t])
                     else Restarted(old(B()), N, t, b.due[t])
    {
      hide Current, Overflow, ListsOk, AllOnTrack, TimersOk, QueueOk, SpareOthers, Listed, Restarted, TimeOk;
      ghost var e := b.due[t];
      TimeParts(M, xLastTime, last, epoch, Overflow(), due);
      TimerParts(M, xTimerPeriodInTicks, uxAutoReload, fires, steady, t);
      DivUnique(e, epoch, xNextExpireTime, M);
      AddWithin(e, xTimerPeriodInTicks[t], M);
      var r := InsertTimerInActiveList(t, WrapAdd(xNextExpireTime, xTimerPeriodInTicks[t], M), xTimeNow, xNextExpireTime, e);
      if r {
        ResendExpired(t, xNextExpireTime, b);
      } else {
        ReloadTracks(b, t);
      }
    }

    /** `prvProcessExpiredTimer`: the head of the current list, due by now, expires. */
    method ProcessExpiredTimer(xNextExpireTime: nat, xTimeNow: nat)
      requires Valid() && Current() != [] && Current()[0] in itemValue && xNextExpireTime == itemValue[Current()[0]]
      requires xNextExpireTime <= xTimeNow == xLastTime
      modifies `xActiveTimerList1, `xActiveTimerList2, `itemValue, `due, `xTimerQueue, `sent, `refused, `fires, `steady
      ensures Valid() && SpareOthers(old(B()), B(), old(Current())[0])
      ensures var t := old(Current())[0];
        && t in old(due) && old(due[t]) <= last
        && t in old(fires) && t in fires && fires[t] == old(fires[t]) + [old(due[t])]
      ensures refused >= old(refused) && (refused == old(refused) ==> old(steady) <= steady) && steady <= old(steady)
      ensures Grows(old(fires), fires) && M > 0
      ensures var t := old(Current())[0];
        && t in uxAutoReload && Entered(old(B()), t)
        && B() == Expired(old(B()), N, uxAutoReload[t], old(B()).due[t] + old(B()).period[t] > last, t)
    {
      hide Current, Overflow, ListsOk, AllOnTrack, TimersOk, QueueOk, SpareOthers, Fired, Listed, Delisted, Restarted, Expired,
          TimeOk, Grows;
      ghost var b := B();
      TimeParts(M, xLastTime, last, epoch, Overflow(), due);
      TimersPositive(M, xTimerPeriodInTicks, uxAutoReload, fires, steady);
      var t, _ := ExpireHead();
      ExpiredCases(b, N, t);
      if uxAutoReload[t] {
        ReloadExpired(t, xNextExpireTime, xTimeNow, b);
      } else {
        OneShotTracks(b, t);
      }
    }

    // ---------------------------------------------------------------- commands received

    /** `xQueueReceive`; the timer is set aside from the steady ones. */
    method TakeCommand() returns (c: Command, ghost was: bool, ghost time: nat)
      requires QueueOk(M, N, xTimerPeriodInTicks, xTimerQueue, sent) && xTimerQueue != []
      requires TimersOk(M, xTimerPeriodInTicks, uxAutoReload, fires, steady)
      modifies `xTimerQueue, `sent, `steady
      ensures QueueOk(M, N, xTimerPeriodInTicks, xTimerQueue, sent) && TimersOk(M, xTimerPeriodInTicks, uxAutoReload, fires, steady)
      ensures c == old(xTimerQueue)[0] && |old(sent)| > 0 && time == old(sent)[0] && CommandOk(M, xTimerPeriodInTicks, c, time)
      ensures steady == old(steady) - {c.timer} && was == (c.timer in old(steady))
      ensures was ==> c.timer in uxAutoReload && uxAutoReload[c.timer]
      ensures B() == Popped(old(B())).(steady := old(steady) - {c.timer})
    {
      hide Current, Overflow, TimersOk, QueueOk, CommandOk;
      QueueParts(M, N, xTimerPeriodInTicks, xTimerQueue, sent);
      c := xTimerQueue[0];
      was, time := c.timer in steady, sent[0];
      CommandTimer(M, xTimerPeriodInTicks, c, time);
      TimerParts(M, xTimerPeriodInTicks, uxAutoReload, fires, steady, c.timer);
      xTimerQueue := xTimerQueue[1..];
      sent := sent[1..];
      steady := steady - {c.timer};
    }

    /** The timer of a command comes off any list. */
    method TakeOffLists(t: TimerId)
      requires ListsValid() && TimeOk(M, xLastTime, last, epoch, Overflow(), due)
      modifies `xActiveTimerList1, `xActiveTimerList2
      ensures ListsValid() && TimeOk(M, xLastTime, last, epoch, Overflow(), due)
      ensures B() == Delisted(old(B()), t) && t !in Current() && t !in Overflow()
      ensures old(Current()) == [] && old(Overflow()) == [] ==> Current() == [] && Overflow() == []
    {
      hide Current, Overflow, ListsOk, TimeOk, Delisted, Without;
      WithoutTime(M, xLastTime, last, epoch, Overflow(), due, t);
      if t in Current() || t in Overflow() {
        ListRemove(t);
      } else {
        DelistNone(B(), t);
      }
    }

    /** A command is received, and its timer comes off any list. */
    method ReceiveCommand() returns (c: Command, ghost was: bool, ghost time: nat)
      requires Valid() && xTimerQueue != []
      modifies `xTimerQueue, `sent, `steady, `xActiveTimerList1, `xActiveTimerList2
      ensures Valid() && c == old(xTimerQueue)[0] && |old(sent)| > 0 && time == old(sent)[0] && CommandOk(M, xTimerPeriodInTicks, c, time)
      ensures steady == old(steady) - {c.timer} && was == (c.timer in old(steady))
      ensures was ==> c.id == Start && c.timer in uxAutoReload && uxAutoReload[c.timer]
      ensures c.timer !in Current() && c.timer !in Overflow() && Handed(B(), was, c.timer, time)
      ensures old(Current()) == [] && old(Overflow()) == [] ==> Current() == [] && Overflow() == []
      ensures B() == Delisted(Popped(old(B())).(steady := old(steady) - {c.timer}), c.timer)
    {
      hide Current, Overflow, ListsOk, AllOnTrack, TimersOk, QueueOk, TimeOk, Handed, CommandOk, Delisted;
      TakeAny(B(), xTimerQueue[0].timer);
      c, was, time := TakeCommand();
      TakeOffLists(c.timer);
    }

    /** The start of a period that has already passed: the callback runs, and an auto-reload timer starts the next. */
    method StartPassed(t: TimerId, xTimeOut: nat, ghost was: bool, ghost time: nat)
      requires M > 0 && t in xTimerPeriodInTicks && t in fires && xTimeOut == (time + xTimerPeriodInTicks[t]) % M
      requires if was then InHand(B(), t, time) && t in steady else AllOnTrack(B()) && t !in steady
      requires ListsValid() && QueueOk(M, N, xTimerPeriodInTicks, xTimerQueue, sent) && t in uxAutoReload && (was ==> uxAutoReload[t])
      requires TimersOk(M, xTimerPeriodInTicks, uxAutoReload, fires, steady)
      modifies `xTimerQueue, `sent, `refused, `fires, `steady
      ensures Orderly()
      ensures refused >= old(refused) && (refused == old(refused) ==> old(steady) <= steady) && old(steady) - {t} <= steady
      ensures steady <= old(steady) && Grows(old(fires), fires)
      ensures var e := time + xTimerPeriodInTicks[t];
        B() == if uxAutoReload[t] then Restarted(Fired(old(B()), t, e), N, t, e) else Fired(old(B()), t, e)
    {
      hide Current, Overflow, ListsOk, AllOnTrack, TimersOk, QueueOk, InHand, Resent, Fired, Grows;
      ghost var e := time + xTimerPeriodInTicks[t];
      StartExpired(B(), N, was, t, time, Command(Start, t, xTimeOut));
      RunCallback(t, e);
      if uxAutoReload[t] {
        RestartByCommand(t, xTimeOut, e);
      }
    }

    /** A timer that was steady before its command was received is so again. */
    ghost method Reinstate(t: TimerId, was: bool)
      requires TimersOk(M, xTimerPeriodInTicks, uxAutoReload, fires, steady) && t in xTimerPeriodInTicks
      requires was ==> t in uxAutoReload && uxAutoReload[t]
      modifies `steady
      ensures TimersOk(M, xTimerPeriodInTicks, uxAutoReload, fires, steady) && B() == Held(old(B()), was, t)
    {
      hide Current, Overflow, TimersOk;
      if was {
        ReloadWhenSteady(M, xTimerPeriodInTicks, uxAutoReload, fires, steady, t);
        steady := steady + {t};
      }
    }

    /** A period is to begin at `time`, no later than the sample and less than M before it. */
    method BeginPeriod(t: TimerId, xCommandTime: nat, xTimeNow: nat, ghost was: bool, ghost time: nat)
      requires ListsValid() && TimeOk(M, xLastTime, last, epoch, Overflow(), due) && seen == last && xTimeNow == xLastTime
      requires TimersOk(M, xTimerPeriodInTicks, uxAutoReload, fires, steady) && QueueOk(M, N, xTimerPeriodInTicks, xTimerQueue, sent)
      requires M > 0 && time <= last < time + M && xCommandTime == time % M
      requires t !in Current() && t !in Overflow() && t in xTimerPeriodInTicks && t in uxAutoReload && (was ==> uxAutoReload[t])
      requires if was then InHand(B(), t, time) && t in steady else AllOnTrack(B()) && t !in steady
      modifies `xActiveTimerList1, `xActiveTimerList2, `itemValue, `due, `xTimerQueue, `sent, `refused, `fires, `steady
      ensures Valid() && Grows(old(fires), fires) && t in old(fires)
      ensures refused >= old(refused) && (refused == old(refused) ==> old(steady) <= steady)
      ensures old(steady) - {t} <= steady <= old(steady)
      ensures B() == Begun(old(B()), N, uxAutoReload[t], t, time)
    {
      hide Current, Overflow, ListsOk, AllOnTrack, TimersOk, QueueOk, TimeOk, InHand, Restarted, Fired, Listed, Grows;
      ghost var b := B();
      GrowsSelf(fires);
      TimeParts(M, xLastTime, last, epoch, Overflow(), due);
      TimerParts(M, xTimerPeriodInTicks, uxAutoReload, fires, steady, t);
      AddWithin(time, xTimerPeriodInTicks[t], M);
      var r := InsertTimerInActiveList(t, WrapAdd(xCommandTime, xTimerPeriodInTicks[t], M), xTimeNow, xCommandTime, time);
      if r {
        StartPassed(t, WrapAdd(xCommandTime, xTimerPeriodInTicks[t], M), was, time);
      } else {
        StartListed(b, was, t, time);
      }
    }

    /** A start or reset command, `time` ticks old or less than M older than the sample. */
    method ProcessStart(c: Command, xTimeNow: nat, ghost was: bool, ghost time: nat)
      requires Valid() && c.id == Start && CommandOk(M, xTimerPeriodInTicks, c, time) && time <= last < time + M && xTimeNow == xLastTime
      requires c.timer !in Current() && c.timer !in Overflow() && Handed(B(), was, c.timer, time)
      requires was ==> c.timer in uxAutoReload && uxAutoReload[c.timer]
      modifies `xActiveTimerList1, `xActiveTimerList2, `itemValue, `due, `xTimerQueue, `sent, `refused, `fires, `steady
      ensures Valid()
      ensures refused >= old(refused) && old(steady) <= steady && (was && refused == old(refused) ==> c.timer in steady)
      ensures steady <= if was then old(steady) + {c.timer} else old(steady)
      ensures Grows(old(fires), fires) && M > 0 && c.timer in xTimerPeriodInTicks && c.timer in old(fires) && c.timer in uxAutoReload
      ensures B() == Begun(Held(old(B()), was, c.timer), N, uxAutoReload[c.timer], c.timer, time)
    {
      hide Current, Overflow, ListsOk, AllOnTrack, TimersOk, QueueOk, TimeOk, InHand, Handed, Begun, Grows;
      TimerParts(M, xTimerPeriodInTicks, uxAutoReload, fires, steady, c.timer);
      HandedParts(B(), was, c.timer, time);
      Reinstate(c.timer, was);
      BeginPeriod(c.timer, c.value, xTimeNow, was, time);
    }

    /** A new period counts from the sample, so it cannot have passed already. */
    method ProcessChangePeriod(c: Command, xTimeNow: nat)
      requires Valid() && c.id == ChangePeriod && CommandOk(M, xTimerPeriodInTicks, c, 0) && xTimeNow == xLastTime
      requires c.timer !in Current() && c.timer !in Overflow() && c.timer !in steady
      modifies `xActiveTimerList1, `xActiveTimerList2, `itemValue, `due, `xTimerPeriodInTicks
      ensures Valid() && c.timer in due && due[c.timer] == last + c.value
      ensures xTimerPeriodInTicks == old(xTimerPeriodInTicks)[c.timer := c.value]
      ensures B() == Listed(old(B()).(period := xTimerPeriodInTicks), c.timer, last + c.value)
    {
      hide Current, Overflow, ListsOk, AllOnTrack, TimersOk, QueueOk, TimeOk;
      var t := c.timer;
      ghost var b := B();
      TimeParts(M, xLastTime, last, epoch, Overflow(), due);
      DivUnique(last, epoch, xLastTime, M);
      AddWithin(last, c.value, M);
      NewPeriod(b, t, c.value, uxAutoReload);
      NewTimerLists(Current(), Overflow(), itemValue, due, epoch, M, xTimerPeriodInTicks, t, c.value);
      QueueMorePeriods(M, N, xTimerPeriodInTicks, xTimerQueue, sent, t, c.value);
      xTimerPeriodInTicks := xTimerPeriodInTicks[t := c.value];
      assert B() == b.(period := b.period[t := c.value]);
      var r := InsertTimerInActiveList(t, WrapAdd(xTimeNow, xTimerPeriodInTicks[t], M), xTimeNow, xTimeNow, last);
      assert !r;
      OtherLists(b.(period := b.period[t := c.value]), t, last + c.value);
    }

    /** What `prvProcessReceivedCommands` does about a command, once it has the time. */
    method CarryOut(c: Command, xTimeNow: nat, ghost was: bool, ghost time: nat)
      requires Valid() && CommandOk(M, xTimerPeriodInTicks, c, time) && xTimeNow == xLastTime
      requires c.id == Start ==> time <= last < time + M
      requires c.timer !in Current() && c.timer !in Overflow() && Handed(B(), was, c.timer, time)
      requires was ==> c.id == Start && c.timer in uxAutoReload && uxAutoReload[c.timer]
      modifies `xActiveTimerList1, `xActiveTimerList2, `itemValue, `xTimerPeriodInTicks, `xTimerQueue, `due,
          `sent, `fires, `steady, `refused
      ensures Valid() && Grows(old(fires), fires)
      ensures forall u :: u in old(xTimerPeriodInTicks) && u in steady ==>
        u in xTimerPeriodInTicks && xTimerPeriodInTicks[u] == old(xTimerPeriodInTicks)[u]
      ensures refused >= old(refused) && old(steady) <= steady && (was && refused == old(refused) ==> c.timer in steady)
      ensures steady <= if was then old(steady) + {c.timer} else old(steady)
      ensures c.timer in old(xTimerPeriodInTicks) && c.timer in old(fires) && c.timer in uxAutoReload && M > 0
      ensures B() == CarriedOut(Held(old(B()), was, c.timer), N, uxAutoReload[c.timer], c, time)
    {
      hide Current, Overflow, ListsOk, AllOnTrack, TimersOk, QueueOk, TimeOk, Handed, Grows, Begun, Listed;
      GrowsSelf(fires);
      TimerParts(M, xTimerPeriodInTicks, uxAutoReload, fires, steady, c.timer);
      match c.id {
        case Start => ProcessStart(c, xTimeNow, was, time);
        case ChangePeriod =>
          HandedParts(B(), was, c.timer, time);
          ProcessChangePeriod(c, xTimeNow);
        case Stop =>
        case Delete =>
      }
    }

    /** A command is received and then the time is read; `m` is the book in between. */
    method ReceiveAndSample(clock: nat) returns (c: Command, xTimeNow: nat, ghost was: bool, ghost time: nat, ghost m: Book)
      requires Valid() && xTimerQueue != [] && last <= clock && (Current() != [] || Overflow() != [] ==> clock < last + M)
      modifies `xActiveTimerList1, `xActiveTimerList2, `firstIsCurrent, `itemValue, `xLastTime, `xTimerQueue,
        `last, `seen, `epoch, `due, `sent, `fires, `steady, `refused
      ensures Valid() && last == clock && xTimeNow == xLastTime && Grows(old(fires), fires) && M > 0
      ensures c == old(xTimerQueue)[0] && |old(sent)| > 0 && time == old(sent)[0] && CommandOk(M, xTimerPeriodInTicks, c, time)
      ensures c.timer !in Current() && c.timer !in Overflow() && Handed(B(), was, c.timer, time) && was == (c.timer in old(steady))
      ensures was ==> c.id == Start && c.timer in uxAutoReload && uxAutoReload[c.timer]
      ensures refused >= old(refused) && (refused == old(refused) ==> old(steady) - {c.timer} <= steady) && steady <= old(steady)
      ensures m == Delisted(Popped(old(B())).(steady := old(steady) - {c.timer}), c.timer) && SpareOne(m.(seen := clock), B(), c.timer)
      ensures clock % M >= old(last) % M ==> B() == m.(seen := clock)
    {
      hide Current, Overflow, ListsOk, AllOnTrack, TimersOk, QueueOk, TimeOk, Handed, SpareOne, Grows, CommandOk,
          Delisted, Popped, Fresh, CaughtUp;
      TimersPositive(M, xTimerPeriodInTicks, uxAutoReload, fires, steady);
      c, was, time := ReceiveCommand();
      m := B();
      var now, _ := SampleTimeNow(clock);
      xTimeNow := now;
      StillHanded(m, B(), clock, was, c.timer, time);
    }

    /** One turn of `prvProcessReceivedCommands`, which reads the time, `clock`, after it has the command. */
    method ProcessReceivedCommand(clock: nat)
      requires Valid() && xTimerQueue != [] && last <= clock && (Current() != [] || Overflow() != [] ==> clock < last + M)
      requires |sent| > 0 && (xTimerQueue[0].id == Start ==> sent[0] <= clock < sent[0] + M)
      modifies `xActiveTimerList1, `xActiveTimerList2, `firstIsCurrent, `itemValue, `xTimerPeriodInTicks, `xLastTime, `xTimerQueue,
        `last, `seen, `epoch, `due, `sent, `fires, `steady, `refused
      ensures Valid() && last == clock
      ensures Turned(old(V()), V(), {})
      ensures Obeyed(old(B()), B(), old(xTimerQueue)[0], old(sent)[0], clock)
      ensures var t := old(xTimerQueue)[0].timer; M > 0 && t in old(xTimerPeriodInTicks) && t in old(fires) && t in uxAutoReload
      ensures clock % M >= old(last) % M ==> B() == Received(old(B()).(seen := clock), N, uxAutoReload[old(xTimerQueue)[0].timer])
    {
      hide Current, Overflow, ListsOk, AllOnTrack, TimersOk, QueueOk, TimeOk, Handed, SpareOne, Grows, Turned, CommandOk,
          Obeyed, CarriedOut, Held, Delisted, Popped;
      ghost var v := V();
      var c, xTimeNow, was, time, b := ReceiveAndSample(clock);
      HeldAgain(v.book, c.timer, clock);
      ghost var m := B();
      CarryOut(c, xTimeNow, was, time);
      GrowsTrans(v.book.fires, m.fires, fires);
      CommandObeyed(v.book, b, m, N, uxAutoReload[c.timer], was, c, time, clock);
      DaemonTurn(v, V());
    }

    // ---------------------------------------------------------------- the daemon's turn

    /** `prvGetNextExpireTime`. */
    method GetNextExpireTime() returns (xNextExpireTime: nat, xListWasEmpty: bool)
      requires ListsValid()
      ensures xListWasEmpty == (Current() == [])
      ensures !xListWasEmpty ==> Current()[0] in itemValue && xNextExpireTime == itemValue[Current()[0]] < M
      ensures xListWasEmpty ==> xNextExpireTime == 0
    {
      ListsParts(Current(), Overflow(), itemValue, due, epoch, M, xTimerPeriodInTicks);
      xListWasEmpty := Current() == [];
      if !xListWasEmpty {
        xNextExpireTime := itemValue[Current()[0]];
      } else {
        xNextExpireTime := 0;
      }
    }

    /**
     `prvProcessTimerOrBlockTask`, at time `clock`.  If the tick count has wrapped, every timer of the old list has
     caught up; if not, and the earliest one is due, that one expires; and else it blocks.  Then nothing listed is due,
     and the block time, not 0, ends at the first expiry or at the wrap; it is indefinite only if nothing is listed.
     And if no command is waiting either, every steady timer's callback has run once for each period that has ended.
     */
    method ProcessTimerOrBlockTask(xNextExpireTime: nat, xListWasEmpty: bool, clock: nat) returns (o: Outcome)
      requires Valid() && last <= clock && (Current() != [] || Overflow() != [] ==> clock < last + M)
      requires xListWasEmpty == (Current() == [])
      requires if xListWasEmpty then xNextExpireTime == 0 else Current()[0] in itemValue && xNextExpireTime == itemValue[Current()[0]] < M
      modifies `xActiveTimerList1, `xActiveTimerList2, `firstIsCurrent, `itemValue, `xTimerPeriodInTicks, `xLastTime, `xTimerQueue,
        `last, `seen, `epoch, `due, `sent, `fires, `steady, `refused
      ensures Valid() && last == clock && Turned(old(V()), V(), {}) && M > 0
      ensures old(Current()) != [] ==> old(Current())[0] in old(due)
      ensures o.Switched? <==> clock % M < old(last) % M
      ensures o.Ran? <==> clock % M >= old(last) % M && old(Current()) != [] && old(due)[old(Current())[0]] <= clock
      ensures o.Switched? ==> forall u :: u in old(Current()) ==> CaughtUp(old(B()), B(), u)
      ensures o.Ran? ==> Expires(old(B()).(seen := clock), B(), N, uxAutoReload, old(Current())[0])
      ensures o.Blocks? ==> B() == old(B()).(seen := clock) && Current() == old(Current()) && Overflow() == old(Overflow())
      ensures o.Blocks? ==> NothingDue(B(), clock) && (o.forEver <==> B().listed == {})
      ensures o.Blocks? && !o.forEver ==> 0 < o.ticks <= M && forall t :: t in B().listed ==> clock + o.ticks <= due[t]
      ensures o.Blocks? && !o.forEver ==>
        if Current() != [] then Current()[0] in due && clock + o.ticks == due[Current()[0]] else clock % M + o.ticks == M
      ensures o.Blocks? && xTimerQueue == [] ==> forall t :: t in steady ==> UpToDate(B(), t, clock)
      ensures Fresh(old(B()).(seen := clock)) ==> Fresh(B())
    {
      hide Current, Overflow, ListsOk, AllOnTrack, TimersOk, QueueOk, TimeOk, SpareOne, SpareOthers, UpToDate, Grows, Turned,
          Expired, Expires, Fresh, CaughtUp;
      ghost var v := V();
      TimersPositive(M, xTimerPeriodInTicks, uxAutoReload, fires, steady);
      HeadKnown(Current(), Overflow(), itemValue, due, epoch, M, xTimerPeriodInTicks);
      var xTimeNow, xTimerListsWereSwitched := SampleTimeNow(clock);
      ListedNone(Current(), Overflow());
      if xTimerListsWereSwitched {
        DaemonTurn(v, V());
        return Switched;
      }
      HeadTime(Current(), Overflow(), itemValue, due, epoch, M, xTimerPeriodInTicks, xTimeNow, last);
      if !xListWasEmpty && xNextExpireTime <= xTimeNow {
        ghost var m := B();
        ProcessExpiredTimer(xNextExpireTime, xTimeNow);
        GrowsTrans(v.book.fires, m.fires, fires);
        ExpiresBy(m, B(), N, uxAutoReload, old(Current())[0]);
        DaemonTurn(v, V());
        return Ran;
      }
      DaemonTurn(v, V());
      var forEver := xListWasEmpty && Overflow() == [];
      var ticks := WrapSub(xNextExpireTime, xTimeNow, M);
      NothingExpired(Current(), Overflow(), itemValue, due, epoch, M, xTimerPeriodInTicks, xTimeNow, last);
      AllUpToDate(B(), clock);
      o := Blocks(ticks, forEver);
    }

    /** `prvProcessReceivedCommands`, while the tick count stays as it is: the queue is emptied, restarts included. */
    method ProcessReceivedCommands(clock: nat)
      requires Valid() && last == clock && Fresh(B())
      modifies `xActiveTimerList1, `xActiveTimerList2, `firstIsCurrent, `itemValue, `xTimerPeriodInTicks, `xLastTime, `xTimerQueue,
        `last, `seen, `epoch, `due, `sent, `fires, `steady, `refused
      ensures Valid() && last == clock && Turned(old(V()), V(), {}) && Fresh(B()) && xTimerQueue == []
      ensures if old(xTimerQueue) == [] then B() == old(B()) else Work(B()) < Work(old(B()))
    {
      hide Current, Overflow, Orderly, TimeOk, Fresh, Work, Turned, Received, Obeyed;
      ghost var v := V();
      SeenNow();
      TurnSelf(v);
      while xTimerQueue != []
        invariant Valid() && last == clock && Turned(v, V(), {}) && Fresh(B())
        invariant if old(xTimerQueue) == [] then B() == v.book else B() == v.book || Work(B()) < Work(v.book)
        decreases Work(B())
      {
        ghost var m := V();
        CommandIsFresh(m.book, clock);
        SeenNow();
        ProcessReceivedCommand(clock);
        TurnTrans(v, m, V());
        ReceivedFalls(m.book, N, uxAutoReload[m.book.queue[0].timer]);
      }
    }

    /** What `Valid` says of the time and the tracks. */
    lemma SeenNow()
      requires Valid()
      ensures M > 0 && B().seen == seen == last && AllOnTrack(B())
    {
      hide AllOnTrack;
    }

    /**
     The loop of `prvTimerTask` at one time: turn after turn the daemon expires what is due and empties its queue, and
     after finitely many it blocks, with nothing due, nothing queued and every steady timer up to date.
     */
    method TimerTask(clock: nat) returns (o: Outcome)
      requires Valid() && last <= clock && (Current() != [] || Overflow() != [] ==> clock < last + M)
      requires Fresh(B().(seen := clock))
      modifies `xActiveTimerList1, `xActiveTimerList2, `firstIsCurrent, `itemValue, `xTimerPeriodInTicks, `xLastTime, `xTimerQueue,
        `last, `seen, `epoch, `due, `sent, `fires, `steady, `refused
      ensures Valid() && last == clock && Turned(old(V()), V(), {}) && o.Blocks? && xTimerQueue == [] && NothingDue(B(), clock)
      ensures forall t :: t in steady ==> UpToDate(B(), t, clock)
    {
      hide Current, Overflow, Orderly, TimeOk, Fresh, Work, Turned, Expires, NothingDue, UpToDate;
      ghost var v := V();
      ListsInOrder();
      var xNextExpireTime, xListWasEmpty := GetNextExpireTime();
      o := ProcessTimerOrBlockTask(xNextExpireTime, xListWasEmpty, clock);
      while !(o.Blocks? && xTimerQueue == [])
        invariant Valid() && last == clock && Turned(v, V(), {}) && Fresh(B())
        invariant o.Blocks? ==> NothingDue(B(), clock)
        invariant o.Blocks? && xTimerQueue == [] ==> forall t :: t in steady ==> UpToDate(B(), t, clock)
        decreases Work(B()), !o.Blocks?
      {
        ghost var m := V();
        ProcessReceivedCommands(clock);
        ghost var n := V();
        TurnTrans(v, m, n);
        ListsInOrder();
        SeenNow();
        xNextExpireTime, xListWasEmpty := GetNextExpireTime();
        ghost var t := if Current() != [] then Current()[0] else 0;
        o := ProcessTimerOrBlockTask(xNextExpireTime, xListWasEmpty, clock);
        TurnTrans(v, n, V());
        if o.Ran? { ExpiresFalls(n.book, B(), N, uxAutoReload, t); }
      }
    }

    lemma ListsInOrder()
      requires Valid()
      ensures ListsValid()
    {
    }
  }

  /** Timer `u` is as it was: neither fired nor listed nor sent for. */
  ghost predicate SpareOne(b: Book, r: Book, u: TimerId) {
    && (u in r.steady <==> u in b.steady) && r.period == b.period && r.start == b.start && r.seen == b.seen && r.M == b.M
    && (u in r.listed <==> u in b.listed) && (u in r.fires <==> u in b.fires) && (u in b.fires && u in r.fires ==> r.fires[u] == b.fires[u])
    && (NotQueued(b.queue, u) ==> NotQueued(r.queue, u))
  }

  ghost predicate SpareOthers(b: Book, r: Book, t: TimerId) {
    forall u :: u != t ==> SpareOne(b, r, u)
  }

  lemma SentSpares(queue: seq<Command>, sent: seq<nat>, c: Command, time: nat)
    requires |sent| == |queue|
    ensures forall u :: u != c.timer && NotQueued(queue, u) ==> NotQueued(queue + [c], u)
  {
    forall u | u != c.timer && NotQueued(queue, u) ensures NotQueued(queue + [c], u) {
      QueueAppend(queue, sent, c, time, u);
    }
  }

  lemma ListValues(s: seq<TimerId>, value: map<TimerId, nat>, due: map<TimerId, nat>, e: nat, M: nat)
    requires ListOk(s, value, due, e, M)
    ensures forall u :: u in s ==> u in value && value[u] < M
  {
  }

  lemma ListsFall(cur: seq<TimerId>, ovf: seq<TimerId>, value: map<TimerId, nat>, due: map<TimerId, nat>, e: nat, M: nat,
                  period: map<TimerId, nat>)
    requires ListsOk(cur, ovf, value, due, e, M, period) && cur != []
    ensures (forall u :: u in cur ==> u in value && value[u] < M) && NoDup(cur)
    ensures forall u :: u in Without(cur, cur[0]) ==> u in value && value[u] < M
    ensures Remaining(Without(cur, cur[0]), value, M) < Remaining(cur, value, M)
  {
    hide Remaining;
    ListValues(cur, value, due, e, M);
    assert cur[0] in cur;
    ReloadFalls(cur, value, M, cur[0], 0);
  }

  lemma ReloadFall(s: seq<TimerId>, value: map<TimerId, nat>, M: nat, t: TimerId, v: nat)
    requires s != [] && t == s[0] && NoDup(s) && (forall u :: u in s ==> u in value && value[u] < M) && t in value
    requires value[t] < v < M
    ensures var value' := value[t := v];
      && (forall u :: u in Without(s, t) ==> u in value')
      && (forall u :: u in SortedInsert(Without(s, t), value', t) ==> u in value' && value'[u] < M && u in s)
      && Remaining(SortedInsert(Without(s, t), value', t), value', M) < Remaining(s, value, M)
  {
    hide Remaining, SortedInsert;
    ReloadFalls(s, value, M, t, v);
  }

  lemma ReloadTracks(b: Book, t: TimerId)
    requires AllOnTrack(b) && Entered(b, t) && b.due[t] <= b.seen
    ensures var r := Listed(Fired(Delisted(b, t), t, b.due[t]), t, b.due[t] + b.period[t]);
      AllOnTrack(r) && SpareOthers(b, r, t)
  {
    hide AllOnTrack;
    ExpireReload(b, t);
  }

  lemma RestartTracks(b: Book, N: nat, t: TimerId, c: Command)
    requires AllOnTrack(b) && Entered(b, t) && c.timer == t && c.id == Start
    ensures var r := Resent(Fired(Delisted(b, t), t, b.due[t]), N, c, b.due[t]);
      AllOnTrack(r) && SpareOthers(b, r, t)
  {
    TrackQueue(b);
    RestartTracksOnly(b, N, t, c);
    SentSpares(b.queue, b.sent, c, b.due[t]);
  }

  lemma RestartTracksOnly(b: Book, N: nat, t: TimerId, c: Command)
    requires AllOnTrack(b) && Entered(b, t) && c.timer == t && c.id == Start
    ensures AllOnTrack(Resent(Fired(Delisted(b, t), t, b.due[t]), N, c, b.due[t]))
  {
    hide AllOnTrack;
    ExpireSend(b, t, c);
    ExpireOnly(b, t);
  }

  lemma AllEntered(cur: seq<TimerId>, ovf: seq<TimerId>, value: map<TimerId, nat>, due: map<TimerId, nat>, e: nat, M: nat,
                   period: map<TimerId, nat>, reload: map<TimerId, bool>, fires: map<TimerId, seq<nat>>, steady: set<TimerId>, b: Book)
    requires ListsOk(cur, ovf, value, due, e, M, period) && TimersOk(M, period, reload, fires, steady)
    requires b.period == period && b.fires == fires && b.due == due && forall u :: u in cur ==> u in b.listed
    ensures forall u :: u in cur ==> Waiting(b, b, u) && u !in ovf
  {
    ListsParts(cur, ovf, value, due, e, M, period);
    forall u | u in cur ensures Waiting(b, b, u) {
      EnteredWait(b, u);
    }
  }

  lemma NotWaiting(b: Book, r: Book, u: TimerId)
    requires (CaughtUp(b, r, u) || Waiting(b, r, u)) && u !in r.listed
    ensures CaughtUp(b, r, u)
  {
  }

  /** The head of a current list is due when its wrapped time has been reached. */
  lemma HeadTime(cur: seq<TimerId>, ovf: seq<TimerId>, value: map<TimerId, nat>, due: map<TimerId, nat>, e: nat, M: nat,
                period: map<TimerId, nat>, tick: nat, now: nat)
    requires ListsOk(cur, ovf, value, due, e, M, period) && TimeOk(M, tick, now, e, ovf, due)
    ensures cur != [] ==> cur[0] in value && cur[0] in due && due[cur[0]] + tick == value[cur[0]] + now
  {
    ListsParts(cur, ovf, value, due, e, M, period);
    if cur != [] { assert cur[0] in cur; }
  }

  lemma HeadKnown(cur: seq<TimerId>, ovf: seq<TimerId>, value: map<TimerId, nat>, due: map<TimerId, nat>, e: nat, M: nat,
                  period: map<TimerId, nat>)
    requires ListsOk(cur, ovf, value, due, e, M, period)
    ensures cur != [] ==> cur[0] in due
  {
    ListsParts(cur, ovf, value, due, e, M, period);
    if cur != [] { assert cur[0] in cur; }
  }

  /** The one thing that happens is that timer `t`, due by now, expires, and is listed again only if it is not due again. */
  ghost predicate Expires(b: Book, r: Book, N: nat, reload: map<TimerId, bool>, t: TimerId) {
    && t in reload && Entered(b, t) && b.M > 0 && b.due[t] <= b.seen
    && r == Expired(b, N, reload[t], b.due[t] + b.period[t] > b.seen, t)
    && t in r.fires && r.fires[t] == b.fires[t] + [b.due[t]]
  }

  lemma ExpiresBy(b: Book, r: Book, N: nat, reload: map<TimerId, bool>, t: TimerId)
    requires t in reload && Entered(b, t) && b.M > 0 && b.due[t] <= b.seen
    requires r == Expired(b, N, reload[t], b.due[t] + b.period[t] > b.seen, t)
    ensures Expires(b, r, N, reload, t) && (Fresh(b) ==> Fresh(r)) && r.steady <= b.steady
  {
    if Fresh(b) { ExpiredFresh(b, N, reload[t], b.due[t] + b.period[t] > b.seen, t); }
  }

  lemma ExpiresFalls(b: Book, r: Book, N: nat, reload: map<TimerId, bool>, t: TimerId)
    requires Expires(b, r, N, reload, t) && Fresh(b)
    ensures Fresh(r) && Work(r) < Work(b)
  {
    hide Fresh, Work, Expired;
    ExpiredFalls(b, N, reload[t], b.due[t] + b.period[t] > b.seen, t);
  }

  lemma CommandIsFresh(b: Book, now: nat)
    requires Fresh(b) && b.seen == now && b.queue != []
    ensures |b.sent| > 0 && (b.queue[0].id == Start ==> b.sent[0] <= now < b.sent[0] + b.M)
  {
  }

  lemma TrackQueue(b: Book)
    requires AllOnTrack(b)
    ensures |b.sent| == |b.queue|
  {
  }

  lemma OneShotTracks(b: Book, t: TimerId)
    requires AllOnTrack(b) && Entered(b, t) && t !in b.steady
    ensures var r := Fired(Delisted(b, t), t, b.due[t]); AllOnTrack(r) && SpareOthers(b, r, t)
  {
    hide AllOnTrack;
    ExpireOnly(b, t);
    assert b.steady - {t} == b.steady;
  }

  lemma SpareSelf(b: Book)
    ensures forall u :: SpareOne(b, b, u)
  {
  }

  lemma SpareTrans(b: Book, m: Book, r: Book, cur: seq<TimerId>)
    requires forall u :: u !in cur ==> SpareOne(b, m, u)
    requires exists t :: t in cur && SpareOthers(m, r, t)
    ensures forall u :: u !in cur ==> SpareOne(b, r, u)
  {
    hide NotQueued;
    var t :| t in cur && SpareOthers(m, r, t);
    forall u | u !in cur ensures SpareOne(b, r, u) {
      assert SpareOne(b, m, u) && SpareOne(m, r, u);
    }
  }

  lemma TimersPositive(M: nat, period: map<TimerId, nat>, reload: map<TimerId, bool>, fires: map<TimerId, seq<nat>>, steady: set<TimerId>)
    requires TimersOk(M, period, reload, fires, steady)
    ensures M > 1
  {
  }

  /** One wrap, and only one, while fewer than M ticks pass; none at all when the quotient stays. */
  lemma SampleEpoch(M: nat, last: nat, clock: nat)
    requires M > 0 && last <= clock
    ensures clock % M < last % M ==> M * (last / M + 1) <= clock
    ensures clock == M * (clock / M) + clock % M
    ensures clock < last + M ==> clock / M == if clock % M < last % M then last / M + 1 else last / M
  {
    Timeouts.Elapsed(last, clock, M);
    assert last == M * (last / M) + last % M;
    if clock % M < last % M {
      assert clock / M != last / M;
      MulMono(M, last / M + 1, clock / M);
    }
  }

  ghost predicate Idle(b: Book, t: TimerId) {
    t !in b.listed && t !in b.steady && NotQueued(b.queue, t)
  }

  lemma NewTimer(b: Book, t: TimerId, period: nat, reload: map<TimerId, bool>, auto_: bool)
    requires AllOnTrack(b) && TimersOk(b.M, b.period, reload, b.fires, b.steady) && t !in b.period && 0 < period < b.M
    ensures AllOnTrack(b.(period := b.period[t := period], fires := b.fires[t := []]))
    ensures TimersOk(b.M, b.period[t := period], reload[t := auto_], b.fires[t := []], b.steady)
  {
    var r := b.(period := b.period[t := period], fires := b.fires[t := []]);
    forall u | u in r.steady ensures OnTrack(r, u) {
      assert OnTrack(b, u);
    }
  }

  lemma NewTimerLists(cur: seq<TimerId>, ovf: seq<TimerId>, value: map<TimerId, nat>, due: map<TimerId, nat>, e: nat, M: nat,
                      period: map<TimerId, nat>, t: TimerId, p: nat)
    requires ListsOk(cur, ovf, value, due, e, M, period)
    ensures ListsOk(cur, ovf, value, due, e, M, period[t := p])
  {
  }

  lemma TracksKnown(b: Book)
    requires AllOnTrack(b)
    ensures forall t :: t in b.steady ==> t in b.fires
  {
    forall t | t in b.steady ensures t in b.fires {
      assert OnTrack(b, t);
    }
  }

  lemma TimeParts(M: nat, xLastTime: nat, last: nat, e: nat, ovf: seq<TimerId>, due: map<TimerId, nat>)
    requires TimeOk(M, xLastTime, last, e, ovf, due)
    ensures xLastTime < M && last == M * e + xLastTime
  {
  }

  lemma WithoutTime(M: nat, xLastTime: nat, last: nat, e: nat, ovf: seq<TimerId>, due: map<TimerId, nat>, t: TimerId)
    requires TimeOk(M, xLastTime, last, e, ovf, due)
    ensures TimeOk(M, xLastTime, last, e, Without(ovf, t), due)
  {
  }

  lemma CommandTimer(M: nat, period: map<TimerId, nat>, c: Command, time: nat)
    requires CommandOk(M, period, c, time)
    ensures M > 0 && c.timer in period
  {
  }

  /**
   Timer `t`, set aside from the steady ones: in no list, and, if it `was` steady, in no command, with its next
   period counting from `from`.
   */
  ghost predicate Handed(b: Book, was: bool, t: TimerId, from: nat) {
    && t !in b.steady && t !in b.listed
    && (was ==> InHand(b.(steady := b.steady + {t}), t, from))
  }

  lemma HandedParts(b: Book, was: bool, t: TimerId, from: nat)
    requires Handed(b, was, t, from)
    ensures t !in b.steady && t !in b.listed && (was ==> InHand(b.(steady := b.steady + {t}), t, from))
  {
  }

  lemma TakeAny(b: Book, t: TimerId)
    requires AllOnTrack(b) && b.queue != [] && b.queue[0].timer == t
    ensures |b.sent| == |b.queue|
    ensures t in b.steady ==> b.queue[0].id == Start && t !in b.listed
    ensures var r := Delisted(Popped(b).(steady := b.steady - {t}), t); AllOnTrack(r) && Handed(r, t in b.steady, t, b.sent[0])
  {
    hide AllOnTrack, InHand;
    TrackQueue(b);
    if t in b.steady {
      TakeQueued(b, t);
      SetAside(Popped(b), t, b.sent[0]);
      var r := Popped(b).(steady := b.steady - {t});
      assert Delisted(r, t) == r && r.(steady := r.steady + {t}) == Popped(b);
    } else {
      TakeOther(b, t);
      OtherLists(Popped(b), t, 0);
      assert b.steady - {t} == b.steady;
    }
  }

  lemma DelistNone(b: Book, t: TimerId)
    requires t !in b.listed
    ensures Delisted(b, t) == b
  {
    assert b.listed - {t} == b.listed;
  }

  lemma CommandObeyed(v: Book, b: Book, m: Book, N: nat, reload: bool, was: bool, c: Command, time: nat, now: nat)
    requires v.queue != [] && v.sent != [] && b == Delisted(Popped(v).(steady := v.steady - {c.timer}), c.timer)
    requires SpareOne(b.(seen := now), m, c.timer) && c.timer in m.period && c.timer in m.fires && m.M > 0
    ensures Obeyed(v, CarriedOut(Held(m, was, c.timer), N, reload, c, time), c, time, now)
  {
    CarriedOutObeys(Held(m, was, c.timer), N, reload, c, time);
  }

  lemma ReloadWhenSteady(M: nat, period: map<TimerId, nat>, reload: map<TimerId, bool>, fires: map<TimerId, seq<nat>>,
                         steady: set<TimerId>, t: TimerId)
    requires TimersOk(M, period, reload, fires, steady) && t in period && t in reload && reload[t]
    ensures TimersOk(M, period, reload, fires, steady + {t})
  {
  }

  lemma StartListed(b: Book, was: bool, t: TimerId, from: nat)
    requires if was then InHand(b, t, from) && t in b.steady && from <= b.seen else AllOnTrack(b) && t !in b.steady
    requires t in b.period
    ensures AllOnTrack(Listed(b, t, from + b.period[t]))
  {
    hide AllOnTrack, InHand;
    if was { ListInHand(b, t, from); } else { OtherLists(b, t, from + b.period[t]); }
  }

  lemma StartExpired(b: Book, N: nat, was: bool, t: TimerId, from: nat, c: Command)
    requires if was then InHand(b, t, from) && t in b.steady else AllOnTrack(b) && t !in b.steady
    requires t in b.period && t in b.fires && c.timer == t && c.id == Start
    ensures AllOnTrack(Resent(Fired(b, t, from + b.period[t]), N, c, from + b.period[t]))
    ensures !was ==> AllOnTrack(Fired(b, t, from + b.period[t]))
  {
    hide AllOnTrack, InHand;
    var e := from + b.period[t];
    if was {
      FireInHand(b, t, from);
      SendInHand(Fired(b, t, e), t, e, c);
      DropInHand(Fired(b, t, e), t, e);
    } else {
      OtherLists(b, t, e);
      OtherSent(Fired(b, t, e), c, e);
      Forgo(Fired(b, t, e), t);
    }
  }

  lemma NewPeriod(b: Book, t: TimerId, p: nat, reload: map<TimerId, bool>)
    requires AllOnTrack(b) && t !in b.steady && TimersOk(b.M, b.period, reload, b.fires, b.steady) && t in b.period && 0 < p < b.M
    ensures AllOnTrack(b.(period := b.period[t := p])) && TimersOk(b.M, b.period[t := p], reload, b.fires, b.steady)
  {
    var r := b.(period := b.period[t := p]);
    forall u | u in r.steady ensures OnTrack(r, u) {
      assert OnTrack(b, u);
    }
  }

  lemma StillHanded(b: Book, r: Book, clock: nat, was: bool, t: TimerId, from: nat)
    requires Handed(b, was, t, from) && AllOnTrack(r) && SpareOne(b.(seen := clock), r, t)
    ensures Handed(r, was, t, from)
  {
    if was {
      var x := b.(steady := b.steady + {t});
      assert From(x, t) == from;
      PickUp(r, t, from);
    }
  }

  lemma ListedNone(cur: seq<TimerId>, ovf: seq<TimerId>)
    ensures (set t | t in cur) + (set t | t in ovf) == {} <==> cur == [] && ovf == []
  {
    var a, b := set t | t in cur, set t | t in ovf;
    if cur != [] { assert cur[0] in a && cur[0] in a + b; }
    if ovf != [] { assert ovf[0] in b && ovf[0] in a + b; }
  }

  /** The callback has run once for each of start + P, start + 2P, ... up to `now`, in order, and never otherwise. */
  ghost predicate UpToDate(b: Book, t: TimerId, now: nat) {
    && t in b.start && t in b.period && t in b.fires && b.period[t] > 0 && b.start[t] <= now
    && |b.fires[t]| == (now - b.start[t]) / b.period[t] && EveryPeriod(b.fires[t], b.start[t], b.period[t])
  }

  lemma AllUpToDate(b: Book, now: nat)
    requires AllOnTrack(b) && b.seen <= now
    ensures NothingDue(b, now) && b.queue == [] ==> forall t :: t in b.steady ==> UpToDate(b, t, now)
  {
    if NothingDue(b, now) && b.queue == [] {
      forall t | t in b.steady ensures UpToDate(b, t, now) {
        FiredExactlyOnTime(b, t, now);
      }
    }
  }

  lemma NothingExpired(cur: seq<TimerId>, ovf: seq<TimerId>, value: map<TimerId, nat>, due: map<TimerId, nat>, e: nat, M: nat,
                       period: map<TimerId, nat>, tick: nat, now: nat)
    requires ListsOk(cur, ovf, value, due, e, M, period) && TimeOk(M, tick, now, e, ovf, due)
    requires cur != [] ==> cur[0] in value && value[cur[0]] > tick
    ensures forall t :: t in cur || t in ovf ==> t in due && due[t] > now
    ensures cur != [] ==> forall t :: t in cur || t in ovf ==> now + (value[cur[0]] - tick) <= due[t]
    ensures cur == [] && ovf != [] ==> tick > 0
    ensures cur == [] ==> forall t :: t in ovf ==> now + (M - tick) <= due[t]
  {
    ListsParts(cur, ovf, value, due, e, M, period);
    NextEpoch(e, M);
    if ovf != [] { assert ovf[0] in ovf; }
    if cur != [] { assert cur[0] in cur; }
  }
}

/**
 How tasks and interrupts meet at a queue (queue.c): sends and receives wake waiting tasks, and while a task
 is deciding to block the queue is locked, so interrupts only count what they did and the unlock catches up.
 Each step is one critical section.  The lock counts are `int8_t`.
 */
module QueueProtocol {
  import opened Sequences

  type TaskId = nat

  datatype Position = Back | Front | Overwrite

  /** queueUNLOCKED and queueLOCKED_UNMODIFIED. */
  const UNLOCKED: int := -1
  const LOCKED: int := 0

  /** What the task that has locked the queue has found out; `HalfOpen` is between the two unlocks. */
  datatype Phase = Free | Locked | SawEmpty | SawFull | HalfOpen

  /**
   `receivers` and `senders` are the waiting lists.  `toReceive` and `toSend` are the tasks that have been
   woken from them and have not yet tried again.
   */
  datatype Q = Q(length: nat, messages: nat, tx: int, rx: int, receivers: seq<TaskId>, senders: seq<TaskId>,
                 toReceive: seq<TaskId>, toSend: seq<TaskId>, phase: Phase)

  /** `( int8_t ) ( c + 1 )`. */
  function Increment8(c: int): int
    requires -128 <= c <= 127
  {
    if c == 127 then -128 else c + 1
  }

  function Space(q: Q): int {
    q.length - q.messages
  }

  function Pending(lock: int): nat {
    if lock > LOCKED then lock else 0
  }

  // ------------------------------------------------------------------ the invariant

  ghost predicate Locks(q: Q) {
    match q.phase
    case Free => q.tx == UNLOCKED && q.rx == UNLOCKED
    case HalfOpen => q.tx == UNLOCKED && LOCKED <= q.rx <= 127
    case _ => LOCKED <= q.tx <= 127 && LOCKED <= q.rx <= 127
  }

  /**
   No wake-up is lost: when tasks wait to receive, every message is accounted for by a woken receiver that
   will try again or by a counted send the unlock will act on; and the same for space and senders.
   */
  ghost predicate NothingLost(q: Q) {
    && (q.receivers != [] ==> q.messages <= |q.toReceive| + Pending(q.tx))
    && (q.senders != [] ==> Space(q) <= |q.toSend| + Pending(q.rx))
  }

  /** A task about to wait has seen the queue empty (or full) with every change since counted. */
  ghost predicate SeenStill(q: Q) {
    && (q.phase == SawEmpty ==> q.messages <= Pending(q.tx))
    && (q.phase == SawFull ==> Space(q) <= Pending(q.rx))
  }

  ghost predicate Inv(q: Q) {
    && 1 <= q.length && q.messages <= q.length
    && Locks(q) && NothingLost(q) && SeenStill(q)
  }

  // ------------------------------------------------------------------ steps

  /** `xTaskRemoveFromEventList( &xTasksWaitingToReceive )`, if any task waits there. */
  function WakeReceiver(q: Q): Q {
    if q.receivers == [] then q else q.(receivers := q.receivers[1..], toReceive := q.toReceive + [q.receivers[0]])
  }

  function WakeSender(q: Q): Q {
    if q.senders == [] then q else q.(senders := q.senders[1..], toSend := q.toSend + [q.senders[0]])
  }

  predicate Accepts(q: Q, p: Position) {
    (q.messages < q.length || p == Overwrite) && (p == Overwrite ==> q.length == 1)
  }

  /** The message count after `prvCopyDataToQueue`. */
  function Put(q: Q, p: Position): Q {
    if p == Overwrite && q.messages > 0 then q else q.(messages := q.messages + 1)
  }

  /** A task sends: `xQueueGenericSend` with room, or overwriting. */
  function TaskSend(q: Q, t: TaskId, p: Position): Q {
    var s := q.(toSend := Without(q.toSend, t));
    WakeReceiver(Put(s, p))
  }

  /** A task finds the queue full. */
  function TaskFindsFull(q: Q, t: TaskId): Q {
    q.(toSend := Without(q.toSend, t))
  }

  /** A task receives. */
  function TaskReceive(q: Q, t: TaskId): Q
    requires q.messages > 0
  {
    WakeSender(q.(toReceive := Without(q.toReceive, t), messages := q.messages - 1))
  }

  /** A task peeks; the message is left for another receiver, which is woken. */
  function TaskPeek(q: Q, t: TaskId): Q {
    WakeReceiver(q.(toReceive := Without(q.toReceive, t)))
  }

  function TaskFindsEmpty(q: Q, t: TaskId): Q {
    q.(toReceive := Without(q.toReceive, t))
  }

  /** `xQueueGenericSendFromISR` and `xQueueGiveFromISR`: the list is left alone while the queue is locked. */
  function IsrSend(q: Q, p: Position): Q
    requires -128 <= q.tx <= 127
  {
    if q.tx == UNLOCKED then WakeReceiver(Put(q, p)) else Put(q, p).(tx := Increment8(q.tx))
  }

  /** `xQueueReceiveFromISR`. */
  function IsrReceive(q: Q): Q
    requires q.messages > 0 && -128 <= q.rx <= 127
  {
    var r := q.(messages := q.messages - 1);
    if q.rx == UNLOCKED then WakeSender(r) else r.(rx := Increment8(q.rx))
  }

  /** `prvLockQueue`, with the scheduler suspended. */
  function Lock(q: Q): Q {
    q.(tx := if q.tx == UNLOCKED then LOCKED else q.tx, rx := if q.rx == UNLOCKED then LOCKED else q.rx, phase := Locked)
  }

  /** `prvIsQueueEmpty` and `prvIsQueueFull` on the locked queue. */
  function CheckEmpty(q: Q): Q {
    if q.messages == 0 then q.(phase := SawEmpty) else q
  }

  function CheckFull(q: Q): Q {
    if q.messages == q.length then q.(phase := SawFull) else q
  }

  /** `vTaskPlaceOnEventList`: among the waiting tasks at the place its priority gives it. */
  function WaitToReceive(q: Q, t: TaskId, at: nat): Q
    requires at <= |q.receivers|
  {
    q.(receivers := InsertAt(q.receivers, at, t), phase := Locked)
  }

  function WaitToSend(q: Q, t: TaskId, at: nat): Q
    requires at <= |q.senders|
  {
    q.(senders := InsertAt(q.senders, at, t), phase := Locked)
  }

  function Min(a: nat, b: nat): nat { if a < b then a else b }

  /** The first loop of `prvUnlockQueue`: one receiver for each counted send, as long as any waits. */
  function UnlockTx(q: Q): Q {
    var m := Min(Pending(q.tx), |q.receivers|);
    q.(receivers := q.receivers[m..], toReceive := q.toReceive + q.receivers[..m], tx := UNLOCKED, phase := HalfOpen)
  }

  function UnlockRx(q: Q): Q {
    var m := Min(Pending(q.rx), |q.senders|);
    q.(senders := q.senders[m..], toSend := q.toSend + q.senders[..m], rx := UNLOCKED, phase := Free)
  }

  /** A waiting task's block time ends, or it is suspended or deleted. */
  function StopWaiting(q: Q, t: TaskId): Q {
    q.(receivers := Without(q.receivers, t), senders := Without(q.senders, t))
  }

  /** `xQueueGenericReset` of a queue in use: of the tasks waiting to send, one is woken. */
  function Reset(q: Q): Q {
    WakeSender(q.(messages := 0, tx := UNLOCKED, rx := UNLOCKED))
  }

  // ------------------------------------------------------------------ runs

  datatype Op =
    | Send(t: TaskId, p: Position) | FindFull(t: TaskId) | Receive(t: TaskId) | Peek(t: TaskId) | FindEmpty(t: TaskId)
    | SendFromISR(p: Position) | ReceiveFromISR
    | DoLock | SeeIfEmpty | SeeIfFull | BlockToReceive(t: TaskId, at: nat) | BlockToSend(t: TaskId, at: nat)
    | DoUnlockTx | DoUnlockRx | GiveUp(t: TaskId)

  /**
   Tasks only run while no other has the scheduler suspended, that is in phase `Free`; interrupts come at any
   time, up to 127 of each kind within one lock.
   */
  ghost predicate Next(q: Q, op: Op, r: Q) {
    match op
    case Send(t, p) => q.phase == Free && Accepts(q, p) && r == TaskSend(q, t, p)
    case FindFull(t) => q.phase == Free && q.messages == q.length && r == TaskFindsFull(q, t)
    case Receive(t) => q.phase == Free && q.messages > 0 && r == TaskReceive(q, t)
    case Peek(t) => q.phase == Free && q.messages > 0 && r == TaskPeek(q, t)
    case FindEmpty(t) => q.phase == Free && q.messages == 0 && r == TaskFindsEmpty(q, t)
    case SendFromISR(p) => Accepts(q, p) && -1 <= q.tx < 127 && r == IsrSend(q, p)
    case ReceiveFromISR => q.messages > 0 && -1 <= q.rx < 127 && r == IsrReceive(q)
    case DoLock => q.phase == Free && r == Lock(q)
    case SeeIfEmpty => q.phase == Locked && r == CheckEmpty(q)
    case SeeIfFull => q.phase == Locked && r == CheckFull(q)
    case BlockToReceive(t, at) => q.phase == SawEmpty && at <= |q.receivers| && r == WaitToReceive(q, t, at)
    case BlockToSend(t, at) => q.phase == SawFull && at <= |q.senders| && r == WaitToSend(q, t, at)
    case DoUnlockTx => q.phase != Free && q.phase != HalfOpen && r == UnlockTx(q)
    case DoUnlockRx => q.phase == HalfOpen && r == UnlockRx(q)
    case GiveUp(t) => q.phase == Free && r == StopWaiting(q, t)
  }

  lemma WithoutShrinks(s: seq<TaskId>, t: TaskId)
    ensures |s| - 1 <= |Without(s, t)| <= |s|
    ensures s == [] ==> Without(s, t) == []
  {
  }

  lemma SendKeeps(q: Q, t: TaskId, p: Position)
    requires Inv(q) && q.phase == Free && Accepts(q, p)
    ensures Inv(TaskSend(q, t, p))
  {
    hide Without;
    WithoutShrinks(q.toSend, t);
  }

  lemma ReceiveKeeps(q: Q, t: TaskId)
    requires Inv(q) && q.phase == Free && q.messages > 0
    ensures Inv(TaskReceive(q, t)) && Inv(TaskPeek(q, t))
  {
    hide Without;
    WithoutShrinks(q.toReceive, t);
  }

  lemma FailKeeps(q: Q, t: TaskId)
    requires Inv(q) && q.phase == Free
    ensures q.messages == q.length ==> Inv(TaskFindsFull(q, t))
    ensures q.messages == 0 ==> Inv(TaskFindsEmpty(q, t))
  {
  }

  lemma IsrKeeps(q: Q, p: Position)
    requires Inv(q)
    ensures Accepts(q, p) && -1 <= q.tx < 127 ==> Inv(IsrSend(q, p))
    ensures q.messages > 0 && -1 <= q.rx < 127 ==> Inv(IsrReceive(q))
  {
  }

  lemma BlockKeeps(q: Q, t: TaskId, at: nat)
    requires Inv(q)
    ensures q.phase == SawEmpty && at <= |q.receivers| ==> Inv(WaitToReceive(q, t, at))
    ensures q.phase == SawFull && at <= |q.senders| ==> Inv(WaitToSend(q, t, at))
  {
    hide InsertAt;
  }

  lemma UnlockKeeps(q: Q)
    requires Inv(q)
    ensures q.phase != Free && q.phase != HalfOpen ==> Inv(UnlockTx(q))
    ensures q.phase == HalfOpen ==> Inv(UnlockRx(q))
  {
  }

  lemma GiveUpKeeps(q: Q, t: TaskId)
    requires Inv(q) && q.phase == Free
    ensures Inv(StopWaiting(q, t))
  {
    hide Without;
    WithoutShrinks(q.receivers, t);
    WithoutShrinks(q.senders, t);
  }

  /** Each step keeps the invariant: whatever interrupts do around a task that blocks, no wake-up is lost. */
  lemma StepKeeps(q: Q, op: Op, r: Q)
    requires Inv(q) && Next(q, op, r)
    ensures Inv(r)
  {
    hide TaskSend, TaskReceive, TaskPeek, TaskFindsFull, TaskFindsEmpty, IsrSend, IsrReceive, WaitToReceive, WaitToSend,
      UnlockTx, UnlockRx, StopWaiting;
    match op
    case Send(t, p) => SendKeeps(q, t, p);
    case FindFull(t) => FailKeeps(q, t);
    case Receive(t) => ReceiveKeeps(q, t);
    case Peek(t) => ReceiveKeeps(q, t);
    case FindEmpty(t) => FailKeeps(q, t);
    case SendFromISR(p) => IsrKeeps(q, p);
    case ReceiveFromISR => IsrKeeps(q, Back);
    case BlockToReceive(t, at) => BlockKeeps(q, t, at);
    case BlockToSend(t, at) => BlockKeeps(q, t, at);
    case DoUnlockTx => UnlockKeeps(q);
    case DoUnlockRx => UnlockKeeps(q);
    case GiveUp(t) => GiveUpKeeps(q, t);
    case _ =>
  }

  ghost predicate IsRun(states: seq<Q>, ops: seq<Op>) {
    |states| == |ops| + 1 && forall i :: 0 <= i < |ops| ==> Next(states[i], ops[i], states[i + 1])
  }

  lemma {:induction false} RunKeeps(states: seq<Q>, ops: seq<Op>, n: nat)
    requires IsRun(states, ops) && Inv(states[0]) && n < |states|
    ensures Inv(states[n])
  {
    hide Inv, Next;
    if n > 0 {
      RunKeeps(states, ops, n - 1);
      StepKeeps(states[n - 1], ops[n - 1], states[n]);
    }
  }

  /**
   In any state of any run where the queue is not locked and every woken task has tried again, no task waits
   for a message while there is one, and none waits for space while there is some.
   */
  lemma NobodyForgotten(states: seq<Q>, ops: seq<Op>, n: nat)
    requires IsRun(states, ops) && Inv(states[0]) && n < |states|
    requires states[n].phase == Free && states[n].toReceive == [] && states[n].toSend == []
    ensures states[n].receivers != [] ==> states[n].messages == 0
    ensures states[n].senders != [] ==> states[n].messages == states[n].length
  {
    RunKeeps(states, ops, n);
  }

  // ------------------------------------------------------------------ one at a time

  predicate SameOrHeadOff(s: seq<TaskId>, r: seq<TaskId>) {
    r == s || (s != [] && r == s[1..])
  }

  /** Sending, receiving and peeking wake one task at most, and always the first of its list. */
  lemma WakesFirstOnly(q: Q, op: Op, r: Q)
    requires Next(q, op, r)
    requires op.Send? || op.Receive? || op.Peek? || op.SendFromISR? || op.ReceiveFromISR?
    ensures SameOrHeadOff(q.receivers, r.receivers) && SameOrHeadOff(q.senders, r.senders)
    ensures q.phase == Free && q.receivers != [] && Locks(q) && (op.Send? || op.SendFromISR? || op.Peek?) ==>
      r.receivers == q.receivers[1..] && q.receivers[0] in r.toReceive
    ensures q.phase == Free && q.senders != [] && Locks(q) && (op.Receive? || op.ReceiveFromISR?) ==>
      r.senders == q.senders[1..] && q.senders[0] in r.toSend
  {
    hide Without;
  }

  // ------------------------------------------------------------------ giving up

  /** `r` is `s` without task `t`, the others in the order they were in. */
  ghost predicate TakenOff(s: seq<TaskId>, r: seq<TaskId>, t: TaskId) {
    t !in r && if t !in s then r == s else exists k :: 0 <= k < |s| && s[k] == t && r == s[..k] + s[k + 1..]
  }

  /** A task that stops waiting is off both lists, and nobody else loses his place. */
  lemma StopWaitingTakesOff(q: Q, t: TaskId)
    requires NoDup(q.receivers) && NoDup(q.senders)
    ensures TakenOff(q.receivers, StopWaiting(q, t).receivers, t) && TakenOff(q.senders, StopWaiting(q, t).senders, t)
    ensures StopWaiting(q, t) == q.(receivers := StopWaiting(q, t).receivers, senders := StopWaiting(q, t).senders)
  {
    WithoutTakesOff(q.receivers, t);
    WithoutTakesOff(q.senders, t);
  }

  lemma WithoutTakesOff(s: seq<TaskId>, t: TaskId)
    requires NoDup(s)
    ensures TakenOff(s, Without(s, t), t)
  {
    if t in s { assert s[IndexOf(s, t)] == t; }
  }

  predicate Blocks(op: Op, t: TaskId) {
    match op
    case BlockToReceive(u, _) => u == t
    case BlockToSend(u, _) => u == t
    case _ => false
  }

  lemma StepStaysOff(q: Q, op: Op, r: Q, t: TaskId)
    requires Next(q, op, r) && !Blocks(op, t) && t !in q.receivers && t !in q.senders
    ensures t !in r.receivers && t !in r.senders
  {
    hide Without, InsertAt;
  }

  /** And it stays off them, over any run, until it blocks again. */
  lemma {:induction false} StaysOff(states: seq<Q>, ops: seq<Op>, t: TaskId, n: nat)
    requires IsRun(states, ops) && n < |states| && t !in states[0].receivers && t !in states[0].senders
    requires forall i :: 0 <= i < n ==> !Blocks(ops[i], t)
    ensures t !in states[n].receivers && t !in states[n].senders
  {
    hide Next;
    if n > 0 {
      StaysOff(states, ops, t, n - 1);
      StepStaysOff(states[n - 1], ops[n - 1], states[n], t);
    }
  }

  // ------------------------------------------------------------------ the lock counts

  /** `k` interrupts send to the back while the queue is locked. */
  function IsrSends(q: Q, k: nat): (r: Q)
    requires -128 <= q.tx <= 127
    ensures -128 <= r.tx <= 127
    decreases k
  {
    if k == 0 then q else IsrSend(IsrSends(q, k - 1), Back)
  }

  /** What an `int8_t` holds after counting `k` from 0. */
  function Count8(k: nat): (c: int)
    requires k < 256
    ensures -128 <= c <= 127
  {
    if k <= 127 then k else k - 256
  }

  /** Interrupts never touch the waiting lists while the queue is locked; up to 254 sends it stays locked. */
  lemma {:induction false} LockedSends(q: Q, k: nat)
    requires q.tx == LOCKED && k <= 254
    ensures IsrSends(q, k) == q.(messages := q.messages + k, tx := Count8(k))
    decreases k
  {
    if k > 0 { LockedSends(q, k - 1); }
  }

  /** At most 127: the unlock moves one receiver for each send, from the head, as far as the list goes. */
  lemma UnlockMovesOneForEach(q: Q, k: nat, t: TaskId, at: nat)
    requires q.tx == LOCKED && k <= 127 && at <= |q.receivers|
    ensures var w := WaitToReceive(q, t, at);
      var m := Min(k, |q.receivers| + 1);
      && UnlockTx(IsrSends(w, k)).toReceive == q.toReceive + w.receivers[..m]
      && UnlockTx(IsrSends(w, k)).receivers == w.receivers[m..]
  {
    hide InsertAt, IsrSends, Put, WakeReceiver;
    LockedSends(WaitToReceive(q, t, at), k);
  }

  /** It does so for up to 127 sends and no more: from 128 to 254 the count reads negative and nobody is moved. */
  lemma UnlockMovesExactly(q: Q, k: nat)
    requires q.tx == LOCKED && 0 < k <= 254 && q.receivers != []
    ensures |UnlockTx(IsrSends(q, k)).toReceive| == |q.toReceive| + Min(k, |q.receivers|) <==> k <= 127
    ensures k > 127 ==> UnlockTx(IsrSends(q, k)).receivers == q.receivers
  {
    hide IsrSends;
    LockedSends(q, k);
  }

  /** After 255 the count reads "unlocked", and the next send goes to the list although the queue is locked. */
  lemma CountWrapsToUnlocked(q: Q)
    requires q.tx == LOCKED && q.receivers != []
    ensures IsrSends(q, 255).tx == UNLOCKED && IsrSends(q, 256).receivers == q.receivers[1..]
  {
    LockedSends(q, 254);
    assert IsrSends(q, 255) == IsrSend(IsrSends(q, 254), Back);
  }

  /** With 128 sends inside one lock a wake-up is lost: the task waits on with 128 messages in the queue. */
  lemma CountOverflowLosesWakeUp(length: nat)
    requires length >= 128
    ensures var q := Q(length, 0, LOCKED, LOCKED, [], [], [], [], SawEmpty);
      var r := UnlockTx(IsrSends(WaitToReceive(q, 7, 0), 128));
      Inv(q) && r.receivers == [7] && r.toReceive == [] && r.messages == 128 && !NothingLost(r)
  {
    var q := Q(length, 0, LOCKED, LOCKED, [], [], [], [], SawEmpty);
    LockedSends(WaitToReceive(q, 7, 0), 128);
  }

  /** The same for interrupts that receive. */
  function IsrReceives(q: Q, k: nat): Q
    requires -128 <= q.rx <= 127 && k <= q.messages
    ensures IsrReceives(q, k).messages == q.messages - k && -128 <= IsrReceives(q, k).rx <= 127
    decreases k
  {
    if k == 0 then q else IsrReceive(IsrReceives(q, k - 1))
  }

  lemma {:induction false} LockedReceives(q: Q, k: nat)
    requires q.rx == LOCKED && k <= 254 && k <= q.messages
    ensures IsrReceives(q, k) == q.(messages := q.messages - k, rx := Count8(k))
    decreases k
  {
    if k > 0 { LockedReceives(q, k - 1); }
  }

  lemma UnlockMovesSenders(q: Q, k: nat)
    requires q.rx == LOCKED && 0 < k <= 254 && k <= q.messages && q.senders != []
    ensures var r := UnlockRx(IsrReceives(q, k));
      && (k <= 127 ==> r.toSend == q.toSend + q.senders[..Min(k, |q.senders|)] && r.senders == q.senders[Min(k, |q.senders|)..])
      && (k > 127 ==> r.toSend == q.toSend && r.senders == q.senders)
  {
    hide IsrReceives;
    LockedReceives(q, k);
  }

  // ------------------------------------------------------------------ reset

  /** Resetting a queue in use keeps the invariant exactly when the one sender it wakes is enough for the space it makes. */
  lemma ResetKeepsWhen(q: Q)
    requires Inv(q) && q.phase == Free
    ensures Inv(Reset(q)) <==> |q.senders| <= 1 || q.length <= |q.toSend| + 1
  {
  }

  /** Two tasks wait to send to a full queue of two; after a reset one of them waits on although there is space. */
  lemma ResetForgetsSender()
    ensures var q := Q(2, 2, UNLOCKED, UNLOCKED, [], [7, 8], [], [], Free);
      Inv(q) && !Inv(Reset(q)) && Reset(q).senders == [8] && Reset(q).messages == 0
  {
  }
}

/**
 What timers.c promises of a timer, in absolute time: an auto-reload timer started by a command sent at
 time C expires at C + P, C + 2P, C + 3P, ..., each once and in order.  A `Book` records, for every timer,
 where the daemon has it and which of its expiries have had their callback run.
 */
module TimerTracks {
  import opened Modular

  type TimerId = nat

  datatype CommandId = Start | Stop | ChangePeriod | Delete

  /** A message in the timer command queue; times in it are wrapped at M. */
  datatype Command = Command(id: CommandId, timer: TimerId, value: nat)

  /**
   `listed` are the timers in an active list, `due` when each expires; `sent` holds the absolute time each
   queued command was sent at.  `fires` are the expiries of each timer since its `start` command, in the order
   their callbacks ran.  `steady` are the auto-reload timers with one start command and none since.
   */
  datatype Book = Book(M: nat, period: map<TimerId, nat>, listed: set<TimerId>, due: map<TimerId, nat>,
                       queue: seq<Command>, sent: seq<nat>, start: map<TimerId, nat>, fires: map<TimerId, seq<nat>>,
                       steady: set<TimerId>, seen: nat)

  ghost predicate NotQueued(queue: seq<Command>, t: TimerId) {
    forall i :: 0 <= i < |queue| ==> queue[i].timer != t
  }

  /** The queue holds one command for `t`, a start command sent at `time`. */
  ghost predicate Queued(queue: seq<Command>, sent: seq<nat>, t: TimerId, time: nat) {
    && |sent| == |queue|
    && exists i :: 0 <= i < |queue| && queue[i].timer == t && queue[i].id == Start && sent[i] == time
        && forall j :: 0 <= j < |queue| && j != i ==> queue[j].timer != t
  }

  /** The expiry times start + P, start + 2P, ... */
  ghost predicate EveryPeriod(fires: seq<nat>, start: nat, P: nat) {
    forall i :: 0 <= i < |fires| ==> fires[i] == start + P * (i + 1)
  }

  /** When the next period counts from: the last expiry, or the start command before the first one. */
  function From(b: Book, t: TimerId): nat
    requires t in b.start && t in b.period && t in b.fires
  {
    b.start[t] + b.period[t] * |b.fires[t]|
  }

  /** All periods so far have run their callback, and the next one is set up: in a list, or as a queued command. */
  ghost predicate OnTrack(b: Book, t: TimerId) {
    && t in b.start && t in b.period && t in b.fires && 0 < b.period[t] < b.M
    && EveryPeriod(b.fires[t], b.start[t], b.period[t])
    && if t in b.listed
       then t in b.due && b.due[t] == From(b, t) + b.period[t] && From(b, t) <= b.seen && NotQueued(b.queue, t)
       else Queued(b.queue, b.sent, t, From(b, t))
  }

  ghost predicate AllOnTrack(b: Book) {
    && |b.sent| == |b.queue|
    && forall t :: t in b.steady ==> OnTrack(b, t)
  }

  // ------------------------------------------------------------------ queue facts

  lemma QueueAppend(queue: seq<Command>, sent: seq<nat>, c: Command, time: nat, t: TimerId)
    requires |sent| == |queue|
    ensures c.timer != t && NotQueued(queue, t) ==> NotQueued(queue + [c], t)
    ensures c.timer == t && c.id == Start && NotQueued(queue, t) ==> Queued(queue + [c], sent + [time], t, time)
    ensures forall x :: c.timer != t && Queued(queue, sent, t, x) ==> Queued(queue + [c], sent + [time], t, x)
  {
    if c.timer == t && c.id == Start && NotQueued(queue, t) {
      assert (queue + [c])[|queue|] == c && (sent + [time])[|queue|] == time;
    }
    forall x | c.timer != t && Queued(queue, sent, t, x) ensures Queued(queue + [c], sent + [time], t, x) {
      var i :| 0 <= i < |queue| && queue[i].timer == t && queue[i].id == Start && sent[i] == x
        && forall j :: 0 <= j < |queue| && j != i ==> queue[j].timer != t;
      assert (queue + [c])[i] == queue[i] && (sent + [time])[i] == x;
    }
  }

  lemma QueuePop(queue: seq<Command>, sent: seq<nat>, t: TimerId)
    requires |sent| == |queue| && queue != []
    ensures NotQueued(queue, t) ==> NotQueued(queue[1..], t)
    ensures forall x :: queue[0].timer != t && Queued(queue, sent, t, x) ==> Queued(queue[1..], sent[1..], t, x)
    ensures forall x :: queue[0].timer == t && Queued(queue, sent, t, x) ==>
      NotQueued(queue[1..], t) && queue[0].id == Start && sent[0] == x
  {
    forall x | Queued(queue, sent, t, x)
      ensures queue[0].timer != t ==> Queued(queue[1..], sent[1..], t, x)
      ensures queue[0].timer == t ==> NotQueued(queue[1..], t) && queue[0].id == Start && sent[0] == x
    {
      var i :| 0 <= i < |queue| && queue[i].timer == t && queue[i].id == Start && sent[i] == x
        && forall j :: 0 <= j < |queue| && j != i ==> queue[j].timer != t;
      if i > 0 {
        assert queue[1..][i - 1] == queue[i] && sent[1..][i - 1] == x;
      }
    }
  }

  // ------------------------------------------------------------------ what the daemon does to a book

  function Fired(b: Book, t: TimerId, e: nat): Book
    requires t in b.fires
  {
    b.(fires := b.fires[t := b.fires[t] + [e]])
  }

  function Sent(b: Book, c: Command, time: nat): Book {
    b.(queue := b.queue + [c], sent := b.sent + [time])
  }

  function Popped(b: Book): Book
    requires b.queue != [] && b.sent != []
  {
    b.(queue := b.queue[1..], sent := b.sent[1..])
  }

  function Listed(b: Book, t: TimerId, due: nat): Book {
    b.(listed := b.listed + {t}, due := b.due[t := due])
  }

  function Delisted(b: Book, t: TimerId): Book {
    b.(listed := b.listed - {t})
  }

  /** Timer `t` is in the daemon's hands: in no list and in no command, its next period counting from `from`. */
  ghost predicate InHand(b: Book, t: TimerId, from: nat) {
    && |b.sent| == |b.queue| && t !in b.listed && NotQueued(b.queue, t)
    && (forall u :: u in b.steady && u != t ==> OnTrack(b, u))
    && (t in b.steady ==>
          && t in b.start && t in b.period && t in b.fires && 0 < b.period[t] < b.M
          && EveryPeriod(b.fires[t], b.start[t], b.period[t]) && From(b, t) == from)
  }

  /** Taking an expired timer off its list. */
  lemma TakeListed(b: Book, t: TimerId)
    requires AllOnTrack(b) && t in b.listed && t in b.steady
    ensures t in b.due && OnTrack(b, t) && InHand(Delisted(b, t), t, From(b, t)) && b.due[t] == From(b, t) + b.period[t]
  {
  }

  /** Receiving its start command. */
  lemma TakeQueued(b: Book, t: TimerId)
    requires AllOnTrack(b) && b.queue != [] && b.queue[0].timer == t && t in b.steady
    ensures b.queue[0].id == Start && InHand(Popped(b), t, b.sent[0]) && t !in b.listed
  {
    forall u | u in b.steady ensures u != t ==> OnTrack(Popped(b), u) {
      QueuePop(b.queue, b.sent, u);
    }
    QueuePop(b.queue, b.sent, t);
  }

  /** Receiving a command for a timer that is not steady. */
  lemma TakeOther(b: Book, t: TimerId)
    requires AllOnTrack(b) && b.queue != [] && b.queue[0].timer == t && t !in b.steady
    ensures AllOnTrack(Popped(b))
  {
    forall u | u in b.steady ensures OnTrack(Popped(b), u) {
      QueuePop(b.queue, b.sent, u);
    }
  }

  /** A timer that is not steady may go on and off the lists without any effect on those that are. */
  lemma OtherLists(b: Book, t: TimerId, due: nat)
    requires AllOnTrack(b) && t !in b.steady
    ensures AllOnTrack(Delisted(b, t)) && AllOnTrack(Listed(b, t, due))
    ensures t in b.fires ==> AllOnTrack(Fired(b, t, due))
  {
    forall u | u in b.steady
      ensures OnTrack(Delisted(b, t), u) && OnTrack(Listed(b, t, due), u) && (t in b.fires ==> OnTrack(Fired(b, t, due), u))
    {
    }
  }

  lemma OtherSent(b: Book, c: Command, time: nat)
    requires AllOnTrack(b) && c.timer !in b.steady
    ensures AllOnTrack(Sent(b, c, time))
  {
    forall u | u in b.steady ensures OnTrack(Sent(b, c, time), u) {
      QueueAppend(b.queue, b.sent, c, time, u);
    }
  }

  lemma NextPeriod(P: nat, n: nat)
    ensures P * (n + 1) == P * n + P
  {
  }

  /** Its callback runs for the period that ends at `from + P`. */
  lemma FireInHand(b: Book, t: TimerId, from: nat)
    requires InHand(b, t, from) && t in b.steady
    ensures InHand(Fired(b, t, from + b.period[t]), t, from + b.period[t])
  {
    var r := Fired(b, t, from + b.period[t]);
    NextPeriod(b.period[t], |b.fires[t]|);
    forall u | u in b.steady && u != t ensures OnTrack(r, u) {
      assert OnTrack(b, u);
    }
    assert |r.fires[t]| == |b.fires[t]| + 1;
  }

  /** It goes into a list, to expire one period after `from`. */
  lemma ListInHand(b: Book, t: TimerId, from: nat)
    requires InHand(b, t, from) && t in b.steady && from <= b.seen
    ensures AllOnTrack(Listed(b, t, from + b.period[t]))
  {
    var r := Listed(b, t, from + b.period[t]);
    forall u | u in r.steady ensures OnTrack(r, u) {
      assert u != t ==> OnTrack(b, u);
    }
  }

  /** A start command for it is queued, sent as of `from`. */
  lemma SendInHand(b: Book, t: TimerId, from: nat, c: Command)
    requires InHand(b, t, from) && t in b.steady && c.timer == t && c.id == Start
    ensures AllOnTrack(Sent(b, c, from))
  {
    var r := Sent(b, c, from);
    forall u | u in r.steady ensures OnTrack(r, u) {
      QueueAppend(b.queue, b.sent, c, from, u);
      assert u != t ==> OnTrack(b, u);
    }
  }

  /** The queue was full: nothing more is promised of the timer. */
  lemma DropInHand(b: Book, t: TimerId, from: nat)
    requires InHand(b, t, from)
    ensures AllOnTrack(b.(steady := b.steady - {t}))
  {
    var r := b.(steady := b.steady - {t});
    forall u | u in r.steady ensures OnTrack(r, u) {
      assert OnTrack(b, u);
    }
  }

  lemma SeeLater(b: Book, now: nat)
    requires AllOnTrack(b) && b.seen <= now
    ensures AllOnTrack(b.(seen := now))
  {
    var r := b.(seen := now);
    forall u | u in r.steady ensures OnTrack(r, u) {
      assert OnTrack(b, u);
    }
  }

  // ------------------------------------------------------------------ the reload paths

  /** The timer has an entry in every table, whether or not it is steady. */
  ghost predicate Entered(b: Book, t: TimerId) {
    t in b.period && t in b.fires && t in b.listed && t in b.due
  }

  /** Expired and put straight back in a list. */
  lemma ExpireReload(b: Book, t: TimerId)
    requires AllOnTrack(b) && Entered(b, t) && b.due[t] <= b.seen
    ensures AllOnTrack(Listed(Fired(Delisted(b, t), t, b.due[t]), t, b.due[t] + b.period[t]))
  {
    hide AllOnTrack, InHand, EveryPeriod, Queued, NotQueued;
    var e := b.due[t];
    if t in b.steady {
      TakeListed(b, t);
      FireInHand(Delisted(b, t), t, e - b.period[t]);
      ListInHand(Fired(Delisted(b, t), t, e), t, e);
    } else {
      OtherLists(b, t, e);
      OtherLists(Delisted(b, t), t, e);
      OtherLists(Fired(Delisted(b, t), t, e), t, e + b.period[t]);
    }
  }

  /** Expired and restarted by a command that counts from this expiry. */
  lemma ExpireSend(b: Book, t: TimerId, c: Command)
    requires AllOnTrack(b) && Entered(b, t) && c.timer == t && c.id == Start
    ensures AllOnTrack(Sent(Fired(Delisted(b, t), t, b.due[t]), c, b.due[t]))
  {
    hide AllOnTrack, InHand, EveryPeriod, Queued, NotQueued;
    var e := b.due[t];
    if t in b.steady {
      TakeListed(b, t);
      FireInHand(Delisted(b, t), t, e - b.period[t]);
      SendInHand(Fired(Delisted(b, t), t, e), t, e, c);
    } else {
      OtherLists(b, t, e);
      OtherLists(Delisted(b, t), t, e);
      OtherSent(Fired(Delisted(b, t), t, e), c, e);
    }
  }

  /** Expired, and not reloaded: a one-shot timer, or no room for the command. */
  lemma ExpireOnly(b: Book, t: TimerId)
    requires AllOnTrack(b) && Entered(b, t)
    ensures AllOnTrack(Fired(Delisted(b, t), t, b.due[t]).(steady := b.steady - {t}))
  {
    hide AllOnTrack, InHand, EveryPeriod, Queued, NotQueued;
    var e := b.due[t];
    if t in b.steady {
      TakeListed(b, t);
      FireInHand(Delisted(b, t), t, e - b.period[t]);
      DropInHand(Fired(Delisted(b, t), t, e), t, e);
    } else {
      OtherLists(b, t, e);
      OtherLists(Delisted(b, t), t, e);
      assert b.steady - {t} == b.steady;
    }
  }

  /** While the daemon has a timer in hand, the others are on track by themselves. */
  lemma SetAside(b: Book, t: TimerId, from: nat)
    requires InHand(b, t, from)
    ensures AllOnTrack(b.(steady := b.steady - {t}))
  {
    DropInHand(b, t, from);
  }

  lemma PickUp(b: Book, t: TimerId, from: nat)
    requires AllOnTrack(b) && t !in b.steady && t !in b.listed && NotQueued(b.queue, t)
    requires t in b.start && t in b.period && t in b.fires && 0 < b.period[t] < b.M
    requires EveryPeriod(b.fires[t], b.start[t], b.period[t]) && From(b, t) == from
    ensures InHand(b.(steady := b.steady + {t}), t, from)
  {
    var r := b.(steady := b.steady + {t});
    forall u | u in r.steady && u != t ensures OnTrack(r, u) {
      assert OnTrack(b, u);
    }
  }

  lemma Forgo(b: Book, t: TimerId)
    requires AllOnTrack(b)
    ensures AllOnTrack(b.(steady := b.steady - {t}))
  {
    var r := b.(steady := b.steady - {t});
    forall u | u in r.steady ensures OnTrack(r, u) {
      assert OnTrack(b, u);
    }
  }

  /** Starting an idle auto-reload timer by a command sent at `time` puts it on track. */
  function Started(b: Book, t: TimerId, c: Command, time: nat): Book {
    Sent(b, c, time).(start := b.start[t := time], fires := b.fires[t := []], steady := b.steady + {t})
  }

  lemma StartIdle(b: Book, t: TimerId, c: Command, time: nat)
    requires AllOnTrack(b) && t !in b.listed && NotQueued(b.queue, t) && t !in b.steady
    requires t in b.period && 0 < b.period[t] < b.M && c.timer == t && c.id == Start
    ensures AllOnTrack(Started(b, t, c, time))
  {
    var m := b.(start := b.start[t := time], fires := b.fires[t := []], steady := b.steady + {t});
    forall u | u in m.steady && u != t ensures OnTrack(m, u) {
      assert OnTrack(b, u);
    }
    SendInHand(m, t, time, c);
  }

  // ------------------------------------------------------------------ the promise

  /**
   When the daemon finds no command waiting and no timer expired, a steady timer's callback has run exactly
   once for each of start + P, start + 2P, ... up to now, in that order, and for nothing else.
   */
  lemma FiredExactlyOnTime(b: Book, t: TimerId, now: nat)
    requires AllOnTrack(b) && t in b.steady && b.queue == [] && b.seen <= now
    requires forall u :: u in b.listed ==> u in b.due && b.due[u] > now
    ensures t in b.start && t in b.period && b.period[t] > 0 && t in b.fires && b.start[t] <= now
    ensures |b.fires[t]| == (now - b.start[t]) / b.period[t]
    ensures EveryPeriod(b.fires[t], b.start[t], b.period[t]) && forall i :: 0 <= i < |b.fires[t]| ==> b.fires[t][i] <= now
  {
    assert OnTrack(b, t);
    var P, n, s := b.period[t], |b.fires[t]|, b.start[t];
    NextPeriod(P, n);
    assert s + P * n <= now < s + P * n + P;
    DivUnique(now - s, n, now - s - P * n, P);
    forall i | 0 <= i < n ensures b.fires[t][i] <= now {
      MulMono(P, i + 1, n);
    }
  }

  // ------------------------------------------------------------------ from one turn to the next

  /** What can be seen between calls: the book, and how many commands have found the queue full. */
  datatype View = View(book: Book, refused: nat)

  /** Callbacks only ever add to the record. */
  ghost predicate Grows(f: map<TimerId, seq<nat>>, g: map<TimerId, seq<nat>>) {
    forall u :: u in f ==> u in g && f[u] <= g[u]
  }

  lemma GrowsSelf(f: map<TimerId, seq<nat>>)
    ensures Grows(f, f)
  {
  }

  lemma GrowsOne(f: map<TimerId, seq<nat>>, t: TimerId, e: nat)
    requires t in f
    ensures Grows(f, f[t := f[t] + [e]])
  {
  }

  lemma GrowsTrans(f: map<TimerId, seq<nat>>, g: map<TimerId, seq<nat>>, h: map<TimerId, seq<nat>>)
    requires Grows(f, g) && Grows(g, h)
    ensures Grows(f, h)
  {
  }

  /** Timer `u` still counts from the same start command, with the same period, and its record has only grown. */
  ghost predicate SameTrack(b: Book, r: Book, u: TimerId) {
    && u in b.start && u in r.start && r.start[u] == b.start[u]
    && u in b.period && u in r.period && r.period[u] == b.period[u]
    && u in b.fires && u in r.fires && b.fires[u] <= r.fires[u]
  }

  /** A call that commands only the timers of `touched`: with no command refused, the promise to all others stands. */
  ghost predicate Turned(v: View, r: View, touched: set<TimerId>) {
    && v.refused <= r.refused
    && (r.refused == v.refused ==> v.book.steady - touched <= r.book.steady)
    && r.book.steady <= v.book.steady + touched
    && forall u :: u in v.book.steady && u in r.book.steady && u !in touched ==> SameTrack(v.book, r.book, u)
  }

  lemma DaemonTurn(v: View, r: View)
    requires AllOnTrack(v.book) && r.book.start == v.book.start && Grows(v.book.fires, r.book.fires)
    requires forall u :: u in v.book.period && u in r.book.steady ==> u in r.book.period && r.book.period[u] == v.book.period[u]
    requires v.refused <= r.refused && (r.refused == v.refused ==> v.book.steady <= r.book.steady)
    requires r.book.steady <= v.book.steady
    ensures Turned(v, r, {})
  {
    forall u | u in v.book.steady && u in r.book.steady ensures SameTrack(v.book, r.book, u) {
      assert OnTrack(v.book, u);
    }
  }

  lemma CommandTurn(v: View, r: View, t: TimerId, start: map<TimerId, nat>, fires: map<TimerId, seq<nat>>)
    requires AllOnTrack(v.book) && v.refused <= r.refused
    requires forall u :: u in v.book.period && u != t ==> u in r.book.period && r.book.period[u] == v.book.period[u]
    requires start == r.book.start && fires == r.book.fires && v.book.steady - {t} <= r.book.steady <= v.book.steady + {t}
    requires forall u :: u in v.book.start && u != t ==> u in start && start[u] == v.book.start[u]
    requires forall u :: u in v.book.fires && u != t ==> u in fires && fires[u] == v.book.fires[u]
    ensures Turned(v, r, {t})
  {
    forall u | u in v.book.steady && u in r.book.steady && u != t ensures SameTrack(v.book, r.book, u) {
      assert OnTrack(v.book, u);
    }
  }

  lemma TurnSelf(v: View)
    requires AllOnTrack(v.book)
    ensures Turned(v, v, {})
  {
    forall u | u in v.book.steady ensures SameTrack(v.book, v.book, u) {
      assert OnTrack(v.book, u);
    }
  }

  lemma TurnTrans(v: View, m: View, r: View)
    requires Turned(v, m, {}) && Turned(m, r, {})
    ensures Turned(v, r, {})
  {
    forall u | u in v.book.steady && u in r.book.steady ensures SameTrack(v.book, r.book, u) {
      assert u in m.book.steady && SameTrack(v.book, m.book, u) && SameTrack(m.book, r.book, u);
    }
  }

  /** Any sequence of calls; `touched[i]` are the timers the i-th call commands. */
  ghost predicate Trace(views: seq<View>, touched: seq<set<TimerId>>) {
    |views| == |touched| + 1 && forall i :: 0 <= i < |touched| ==> Turned(views[i], views[i + 1], touched[i])
  }

  lemma {:induction false} RefusalsAddUp(views: seq<View>, touched: seq<set<TimerId>>, i: nat, n: nat)
    requires Trace(views, touched) && i <= n < |views|
    ensures views[i].refused <= views[n].refused
  {
    hide Turned;
    if i < n {
      RefusalsAddUp(views, touched, i, n - 1);
      TurnRefusals(views[n - 1], views[n], touched[n - 1]);
    }
  }

  lemma TurnRefusals(v: View, r: View, touched: set<TimerId>)
    requires Turned(v, r, touched)
    ensures v.refused <= r.refused
  {
  }

  lemma TurnTrack(b: Book, v: View, r: View, touched: set<TimerId>, t: TimerId)
    requires Turned(v, r, touched) && t !in touched && t in v.book.steady && r.refused == v.refused && SameTrack(b, v.book, t)
    ensures t in r.book.steady && SameTrack(b, r.book, t)
  {
  }

  /** A timer that no call commands stays steady, on the same track, as long as no command is refused. */
  lemma {:induction false} TrackLasts(views: seq<View>, touched: seq<set<TimerId>>, t: TimerId, i: nat, n: nat)
    requires Trace(views, touched) && i <= n < |views| && AllOnTrack(views[i].book) && t in views[i].book.steady
    requires views[n].refused == views[i].refused && forall j :: i <= j < n ==> t !in touched[j]
    ensures t in views[n].book.steady && SameTrack(views[i].book, views[n].book, t)
  {
    hide Turned, SameTrack;
    if i == n {
      TrackSelf(views[i].book, t);
    } else {
      RefusalsAddUp(views, touched, i, n - 1);
      TurnRefusals(views[n - 1], views[n], touched[n - 1]);
      TrackLasts(views, touched, t, i, n - 1);
      TurnTrack(views[i].book, views[n - 1], views[n], touched[n - 1], t);
    }
  }

  lemma TrackSelf(b: Book, t: TimerId)
    requires AllOnTrack(b) && t in b.steady
    ensures SameTrack(b, b, t)
  {
    assert OnTrack(b, t);
  }

  /** Nothing in a list is due by `now`. */
  ghost predicate NothingDue(b: Book, now: nat) {
    forall t :: t in b.listed ==> t in b.due && b.due[t] > now
  }

  /** C + P, C + 2P, ..., C + nP. */
  function Periods(C: nat, P: nat, n: nat): (s: seq<nat>)
    ensures |s| == n && forall i :: 0 <= i < n ==> s[i] == C + P * (i + 1)
  {
    seq(n, i requires 0 <= i < n => C + P * (i + 1))
  }

  /**
   The promise, end to end.  A timer started by a command sent at C, over any sequence of daemon turns and of
   calls on other timers with no command refused: whenever the daemon has nothing more to do at time N, the
   timer's callback has run exactly once for each of C + P, C + 2P, ... up to N, in that order; and at any time
   in between it had run for the first so many of them.
   */
  lemma OncePerPeriod(views: seq<View>, touched: seq<set<TimerId>>, t: TimerId, C: nat, P: nat, k: nat, N: nat)
    requires Trace(views, touched) && AllOnTrack(views[0].book) && t in views[0].book.steady
    requires t in views[0].book.start && views[0].book.start[t] == C && t in views[0].book.period && views[0].book.period[t] == P
    requires (forall j :: 0 <= j < |touched| ==> t !in touched[j]) && views[|touched|].refused == views[0].refused
    requires var b := views[|touched|].book; AllOnTrack(b) && b.queue == [] && b.seen <= N && NothingDue(b, N)
    requires k <= |touched|
    ensures P > 0 && C <= N
    ensures var b := views[|touched|].book; t in b.fires && b.fires[t] == Periods(C, P, (N - C) / P)
    ensures t in views[k].book.fires && views[k].book.fires[t] <= Periods(C, P, (N - C) / P)
  {
    hide Turned, AllOnTrack;
    var n := |touched|;
    RefusalsAddUp(views, touched, 0, k);
    RefusalsAddUp(views, touched, k, n);
    TrackLasts(views, touched, t, 0, k);
    TrackLasts(views, touched, t, 0, n);
    TrackBetween(views, touched, t, k, n);
    FiredExactlyOnTime(views[n].book, t, N);
    assert views[n].book.fires[t] == Periods(C, P, (N - C) / P);
  }

  lemma {:induction false} TrackBetween(views: seq<View>, touched: seq<set<TimerId>>, t: TimerId, k: nat, n: nat)
    requires Trace(views, touched) && k <= n < |views| && t in views[0].book.steady && AllOnTrack(views[0].book)
    requires views[n].refused == views[0].refused && forall j :: 0 <= j < n ==> t !in touched[j]
    ensures t in views[k].book.fires && t in views[n].book.fires && views[k].book.fires[t] <= views[n].book.fires[t]
  {
    hide Turned, AllOnTrack;
    RefusalsAddUp(views, touched, 0, k);
    RefusalsAddUp(views, touched, k, n);
    TrackLasts(views, touched, t, 0, k);
    if k < n {
      RefusalsAddUp(views, touched, 0, n - 1);
      RefusalsAddUp(views, touched, n - 1, n);
      TrackBetween(views, touched, t, k, n - 1);
      TrackLasts(views, touched, t, 0, n - 1);
      TurnGrows(views[n - 1], views[n], touched[n - 1], t);
    }
  }

  lemma TurnGrows(v: View, r: View, touched: set<TimerId>, t: TimerId)
    requires Turned(v, r, touched) && t !in touched && t in v.book.steady && r.refused == v.refused
    ensures t in v.book.fires && t in r.book.fires && v.book.fires[t] <= r.book.fires[t]
  {
  }
}

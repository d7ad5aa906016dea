/**
 What the timer daemon does to its book, turn by turn in absolute time, and why it catches up: at any one time only
 finitely many expiries and commands are left to deal with, and each turn leaves fewer.
 */
module TimerWork {
  import opened Modular
  import opened TimerTracks

  // ------------------------------------------------------------------ turns

  /** The start command is queued if there is room; if not, the timer is not steady any more. */
  function Resent(b: Book, N: nat, c: Command, time: nat): Book {
    if |b.queue| < N then Sent(b, c, time) else b.(steady := b.steady - {c.timer})
  }

  /** The command by which the daemon restarts a timer whose period ended at `e`. */
  function Restarted(b: Book, N: nat, t: TimerId, e: nat): Book
    requires b.M > 0
  {
    Resent(b, N, Command(Start, t, e % b.M), e)
  }

  /**
   A listed timer expires: its callback runs for the time it was due, and an auto-reload timer is listed for the
   next period or, if it cannot be, restarted by a command.
   */
  function Expired(b: Book, N: nat, reload: bool, relist: bool, t: TimerId): Book
    requires Entered(b, t) && b.M > 0
  {
    var e := b.due[t];
    var f := Fired(Delisted(b, t), t, e);
    if !reload then f else if relist then Listed(f, t, e + b.period[t]) else Restarted(f, N, t, e)
  }

  lemma ExpiredCases(b: Book, N: nat, t: TimerId)
    requires Entered(b, t) && b.M > 0
    ensures var f := Fired(Delisted(b, t), t, b.due[t]);
      && (forall relist :: Expired(b, N, false, relist, t) == f)
      && Expired(b, N, true, true, t) == Listed(f, t, b.due[t] + b.period[t])
      && Expired(b, N, true, false, t) == Restarted(f, N, t, b.due[t])
  {
  }

  /** A period is to begin at `from`: the timer is listed for its end, unless that has passed. */
  function Begun(b: Book, N: nat, reload: bool, t: TimerId, from: nat): Book
    requires t in b.period && t in b.fires && b.M > 0
  {
    var e := from + b.period[t];
    if e > b.seen then Listed(b, t, e) else if reload then Restarted(Fired(b, t, e), N, t, e) else Fired(b, t, e)
  }

  /** What a command comes to; its timer is in no list. */
  function CarriedOut(b: Book, N: nat, reload: bool, c: Command, time: nat): Book
    requires c.timer in b.period && c.timer in b.fires && b.M > 0
  {
    match c.id
    case Start => Begun(b, N, reload, c.timer, time)
    case ChangePeriod => Listed(b.(period := b.period[c.timer := c.value]), c.timer, b.seen + c.value)
    case Stop => b
    case Delete => b
  }

  /** The timer is steady again, if it `was` before the daemon set it aside. */
  function Held(b: Book, was: bool, t: TimerId): Book {
    b.(steady := if was then b.steady + {t} else b.steady)
  }

  lemma HeldAgain(b: Book, t: TimerId, now: nat)
    requires b.queue != [] && b.sent != []
    ensures Held(Delisted(Popped(b).(steady := b.steady - {t}), t).(seen := now), t in b.steady, t) == Delisted(Popped(b.(seen := now)), t)
  {
    assert if t in b.steady then b.steady - {t} + {t} == b.steady else b.steady - {t} == b.steady;
  }

  /** The first command of the queue is received and carried out. */
  function Received(b: Book, N: nat, reload: bool): Book
    requires b.queue != [] && b.sent != [] && b.queue[0].timer in b.period && b.queue[0].timer in b.fires && b.M > 0
  {
    CarriedOut(Delisted(Popped(b), b.queue[0].timer), N, reload, b.queue[0], b.sent[0])
  }

  /**
   What has become of a command for timer `t`, whether or not the lists were switched meanwhile: a stopped or deleted
   timer is in no list, a new period counts from now, and a started one is listed for the end of its period or, if
   that has passed, has had its callback run for it.
   */
  ghost predicate Obeyed(b: Book, r: Book, c: Command, time: nat, now: nat) {
    var t := c.timer;
    t in b.period && t in b.fires && t in r.period && t in r.fires &&
    match c.id
    case Start =>
      var e := time + b.period[t];
      r.period[t] == b.period[t] && if e > now then t in r.listed && t in r.due && r.due[t] == e && r.fires[t] == b.fires[t]
                                    else t !in r.listed && r.fires[t] == b.fires[t] + [e]
    case ChangePeriod =>
      t in r.listed && t in r.due && r.due[t] == now + c.value && r.period[t] == c.value && r.fires[t] == b.fires[t]
    case _ => t !in r.listed && r.period[t] == b.period[t] && r.fires[t] == b.fires[t]
  }

  lemma CarriedOutObeys(b: Book, N: nat, reload: bool, c: Command, time: nat)
    requires c.timer in b.period && c.timer in b.fires && b.M > 0 && c.timer !in b.listed
    ensures Obeyed(b, CarriedOut(b, N, reload, c, time), c, time, b.seen)
  {
  }

  // ------------------------------------------------------------------ nothing is a whole turn late

  /** No listed expiry and no start command is `M` ticks old yet. */
  ghost predicate Fresh(b: Book) {
    && |b.sent| == |b.queue| && b.M > 0
    && (forall t :: t in b.listed ==> t in b.due && t in b.period && 0 < b.period[t] && b.seen < b.due[t] + b.M)
    && (forall i :: 0 <= i < |b.queue| ==>
          b.queue[i].timer in b.period && 0 < b.period[b.queue[i].timer]
          && (b.queue[i].id == Start ==> b.sent[i] <= b.seen < b.sent[i] + b.M)
          && (b.queue[i].id == ChangePeriod ==> b.queue[i].value > 0))
  }

  lemma ResentFresh(b: Book, N: nat, t: TimerId, e: nat)
    requires Fresh(b) && t in b.period && 0 < b.period[t] && e <= b.seen < e + b.M
    ensures Fresh(Restarted(b, N, t, e))
  {
    var r := Restarted(b, N, t, e);
    if |b.queue| < N {
      assert r.queue[..|b.queue|] == b.queue && r.sent[..|b.queue|] == b.sent;
      assert r.queue[|b.queue|] == Command(Start, t, e % b.M) && r.sent[|b.queue|] == e;
    }
  }

  lemma ExpiredFresh(b: Book, N: nat, reload: bool, relist: bool, t: TimerId)
    requires Fresh(b) && Entered(b, t) && b.due[t] <= b.seen
    ensures Fresh(Expired(b, N, reload, relist, t))
  {
    var f := Fired(Delisted(b, t), t, b.due[t]);
    assert Fresh(f);
    ResentFresh(f, N, t, b.due[t]);
  }

  lemma PoppedFresh(b: Book)
    requires Fresh(b) && b.queue != []
    ensures b.sent != [] && Fresh(Delisted(Popped(b), b.queue[0].timer))
  {
    assert forall i :: 0 <= i < |b.queue[1..]| ==> b.queue[1..][i] == b.queue[i + 1] && b.sent[1..][i] == b.sent[i + 1];
  }

  lemma ReceivedFresh(b: Book, N: nat, reload: bool)
    requires Fresh(b) && b.queue != [] && b.queue[0].timer in b.fires
    ensures b.sent != [] && b.queue[0].timer in b.period && Fresh(Received(b, N, reload))
  {
    PoppedFresh(b);
    var c, time, p := b.queue[0], b.sent[0], Delisted(Popped(b), b.queue[0].timer);
    if c.id == Start {
      var e := time + b.period[c.timer];
      if e <= b.seen {
        assert Fresh(Fired(p, c.timer, e));
        ResentFresh(Fired(p, c.timer, e), N, c.timer, e);
      }
    }
  }

  // ------------------------------------------------------------------ switching the lists

  /** A timer's callback has run for the time it was due, and then perhaps for later periods. */
  ghost predicate CaughtUp(b: Book, r: Book, u: TimerId) {
    u in b.fires && u in b.due && u in r.fires && b.fires[u] + [b.due[u]] <= r.fires[u]
  }

  /** It is still listed as it was. */
  ghost predicate Waiting(b: Book, r: Book, u: TimerId) {
    && u in r.listed && u in b.due && u in r.due && r.due[u] == b.due[u]
    && u in b.fires && u in r.fires && r.fires[u] == b.fires[u]
  }

  lemma EnteredWait(b: Book, u: TimerId)
    requires Entered(b, u)
    ensures Waiting(b, b, u)
  {
  }

  lemma ExpiredTurn(b: Book, m: Book, N: nat, reload: bool, relist: bool, t: TimerId, u: TimerId)
    requires Entered(m, t) && m.M > 0 && (CaughtUp(b, m, u) || Waiting(b, m, u))
    ensures var r := Expired(m, N, reload, relist, t); CaughtUp(b, r, u) || (u != t && Waiting(b, r, u))
  {
  }

  // ------------------------------------------------------------------ work

  /** What an expiry due at `d` costs: one callback for each tick that has gone by since, at most. */
  function ExpiryWork(d: nat, now: nat): nat {
    if d <= now then now - d + 2 else 0
  }

  function CommandWork(c: Command, time: nat, now: nat): nat {
    if c.id == Start && time <= now then now - time + 1 else 1
  }

  ghost function ListWork(listed: set<TimerId>, due: map<TimerId, nat>, now: nat): nat
    requires forall t :: t in listed ==> t in due
  {
    if listed == {} then 0 else
      var t :| t in listed;
      ExpiryWork(due[t], now) + ListWork(listed - {t}, due, now)
  }

  function QueueWork(queue: seq<Command>, sent: seq<nat>, now: nat): nat
    requires |sent| == |queue|
  {
    if queue == [] then 0 else CommandWork(queue[0], sent[0], now) + QueueWork(queue[1..], sent[1..], now)
  }

  ghost function Work(b: Book): nat
    requires Fresh(b)
  {
    ListWork(b.listed, b.due, b.seen) + QueueWork(b.queue, b.sent, b.seen)
  }

  /** The sum over the listed timers does not depend on the order they are taken in. */
  lemma {:induction false} ListWorkWithout(listed: set<TimerId>, due: map<TimerId, nat>, now: nat, t: TimerId)
    requires (forall u :: u in listed ==> u in due) && t in listed
    ensures ListWork(listed, due, now) == ExpiryWork(due[t], now) + ListWork(listed - {t}, due, now)
  {
    var u :| u in listed && ListWork(listed, due, now) == ExpiryWork(due[u], now) + ListWork(listed - {u}, due, now);
    if u != t {
      ListWorkWithout(listed - {u}, due, now, t);
      ListWorkWithout(listed - {t}, due, now, u);
      assert listed - {u} - {t} == listed - {t} - {u};
    }
  }

  lemma {:induction false} ListWorkSame(listed: set<TimerId>, due: map<TimerId, nat>, now: nat, t: TimerId, d: nat)
    requires (forall u :: u in listed ==> u in due) && t !in listed
    ensures ListWork(listed, due[t := d], now) == ListWork(listed, due, now)
  {
    if listed != {} {
      var u :| u in listed;
      ListWorkSame(listed - {u}, due, now, t, d);
      ListWorkWithout(listed, due, now, u);
      ListWorkWithout(listed, due[t := d], now, u);
    }
  }

  lemma ListedWork(listed: set<TimerId>, due: map<TimerId, nat>, now: nat, t: TimerId, d: nat)
    requires (forall u :: u in listed ==> u in due) && t !in listed
    ensures ListWork(listed + {t}, due[t := d], now) == ExpiryWork(d, now) + ListWork(listed, due, now)
  {
    ListWorkWithout(listed + {t}, due[t := d], now, t);
    assert listed + {t} - {t} == listed;
    ListWorkSame(listed, due, now, t, d);
  }

  lemma {:induction false} QueueWorkAppend(queue: seq<Command>, sent: seq<nat>, now: nat, c: Command, time: nat)
    requires |sent| == |queue|
    ensures QueueWork(queue + [c], sent + [time], now) == QueueWork(queue, sent, now) + CommandWork(c, time, now)
  {
    if queue == [] {
      assert [c][1..] == [] && queue + [c] == [c] && sent + [time] == [time];
    } else {
      assert (queue + [c])[1..] == queue[1..] + [c] && (sent + [time])[1..] == sent[1..] + [time];
      QueueWorkAppend(queue[1..], sent[1..], now, c, time);
    }
  }

  lemma RestartedWork(b: Book, N: nat, t: TimerId, e: nat)
    requires Fresh(b) && Fresh(Restarted(b, N, t, e)) && e <= b.seen
    ensures Work(Restarted(b, N, t, e)) <= Work(b) + b.seen - e + 1
  {
    QueueWorkAppend(b.queue, b.sent, b.seen, Command(Start, t, e % b.M), e);
  }

  /** Each expiry that is dealt with leaves less work, if a timer is put back only for a time still to come. */
  lemma ExpiredFalls(b: Book, N: nat, reload: bool, relist: bool, t: TimerId)
    requires Fresh(b) && Entered(b, t) && b.due[t] <= b.seen
    requires relist ==> b.due[t] + b.period[t] > b.seen
    ensures Fresh(Expired(b, N, reload, relist, t)) && Work(Expired(b, N, reload, relist, t)) < Work(b)
  {
    hide Fresh, ListWork, QueueWork;
    ExpiredFresh(b, N, reload, relist, t);
    var e, f := b.due[t], Fired(Delisted(b, t), t, b.due[t]);
    ExpiredFresh(b, N, false, relist, t);
    FreshParts(b);
    ListWorkWithout(b.listed, b.due, b.seen, t);
    if reload {
      if relist {
        ListedWork(f.listed, f.due, f.seen, t, e + b.period[t]);
      } else {
        RestartedWork(f, N, t, e);
      }
    }
  }

  lemma FreshParts(b: Book)
    requires Fresh(b)
    ensures |b.sent| == |b.queue| && b.M > 0 && forall t :: t in b.listed ==> t in b.due && t in b.period
  {
  }

  lemma PoppedWork(b: Book)
    requires Fresh(b) && b.queue != []
    ensures b.sent != [] && Fresh(Delisted(Popped(b), b.queue[0].timer))
    ensures Work(Delisted(Popped(b), b.queue[0].timer)) + CommandWork(b.queue[0], b.sent[0], b.seen) <= Work(b)
  {
    hide Fresh, ListWork;
    PoppedFresh(b);
    FreshParts(b);
    var t := b.queue[0].timer;
    if t in b.listed { ListWorkWithout(b.listed, b.due, b.seen, t); } else { assert b.listed - {t} == b.listed; }
  }

  /** And so does each command. */
  lemma ReceivedFalls(b: Book, N: nat, reload: bool)
    requires Fresh(b) && b.queue != [] && b.queue[0].timer in b.fires
    ensures b.sent != [] && b.queue[0].timer in b.period
    ensures Fresh(Received(b, N, reload)) && Work(Received(b, N, reload)) < Work(b)
  {
    hide ListWork, QueueWork;
    ReceivedFresh(b, N, reload);
    PoppedWork(b);
    var c, time, p := b.queue[0], b.sent[0], Delisted(Popped(b), b.queue[0].timer);
    assert b.period[c.timer] > 0;
    match c.id
    case Start =>
      var e := time + b.period[c.timer];
      if e > b.seen {
        ListedWork(p.listed, p.due, p.seen, c.timer, e);
      } else {
        var f := Fired(p, c.timer, e);
        assert Fresh(f) && Work(f) == Work(p);
        if reload { RestartedWork(f, N, c.timer, e); }
      }
    case ChangePeriod =>
      ListedWork(p.listed, p.due, p.seen, c.timer, b.seen + c.value);
    case _ =>
  }

  /** With no work left the book is quiet: nothing is due and nothing is queued. */
  lemma NoWorkLeft(b: Book)
    requires Fresh(b) && Work(b) == 0
    ensures NothingDue(b, b.seen) && b.queue == []
  {
    hide ListWork;
    forall t | t in b.listed ensures t in b.due && b.due[t] > b.seen {
      ListWorkWithout(b.listed, b.due, b.seen, t);
    }
  }
}

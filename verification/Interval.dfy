/**
 * The timer task behind `Context::interval` and `interval_with`: sleep, upgrade the weak sender, and try
 * to get one tick into the actor's mailbox before it is stale.  Times are in milliseconds.
 */
module Interval {
  import opened Base
  import opened Mailbox
  import opened Protocol
  import opened Wakes
  import opened EventLoop
  import opened Addr

  /**
   * A mailbox entry as the timer sees it.  Each tick is a payload boxed on its own, and `n` is its identity;
   * `Other` is whatever somebody else pushes.
   */
  datatype Item<+T> = TickItem(n: nat, msg: T) | Other(x: T)

  /** What another task does, and when: the time is counted from the moment the tick was made. */
  datatype At<+T> = At(time: real, event: Event<T>)

  /**
   * One round of the task: what others do while it sleeps and while it sends, how late the sleep and the
   * timeout end, and whether the round is cut off by the observer or an abort while the send still waits.
   */
  datatype Round<+T> = Round(
    late: real, asleep: seq<Event<Item<T>>>, during: seq<At<Item<T>>>, slack: real, observed: bool)

  datatype TickFate = Enqueued | Skipped | Failed | InFlight

  /** A tick: when its message was made, when the task was done with it, and how. */
  datatype Tick = Tick(at: real, done: real, fate: TickFate)

  /** Half the period, but between 100 ms and 5 s (src/context.rs:370-372). */
  function Expiry(period: real): (e: real)
    ensures 100.0 <= e <= 5000.0
    ensures 200.0 <= period <= 10000.0 ==> e == period * 0.5
    ensures period < 200.0 ==> e == 100.0
    ensures period > 10000.0 ==> e == 5000.0
  {
    if period * 0.5 < 100.0 then 100.0 else if period * 0.5 > 5000.0 then 5000.0 else period * 0.5
  }

  // ----- the environment -----

  predicate Foreign<T>(event: Event<Item<T>>) {
    event.Client? ==>
      (event.act.TrySends? ==> event.act.x.Other?) && (event.act.ForceSends? ==> event.act.x.Other?)
  }

  predicate AllForeign<T>(events: seq<Event<Item<T>>>) {
    forall i :: 0 <= i < |events| ==> Foreign(events[i])
  }

  predicate Timed<T>(during: seq<At<T>>) {
    forall i :: 0 <= i < |during| ==> during[i].time >= 0.0
  }

  /** Timers never end early, and nobody else pushes ticks of this interval. */
  predicate Plausible<T>(r: Round<T>) {
    && r.late >= 0.0 && r.slack >= 0.0
    && Timed(r.during) && AllForeign(r.asleep)
    && forall i :: 0 <= i < |r.during| ==> Foreign(r.during[i].event)
  }

  predicate AllPlausible<T>(rounds: seq<Round<T>>) {
    forall i :: 0 <= i < |rounds| ==> Plausible(rounds[i])
  }

  /** Sleeps and timeouts end exactly when they should. */
  predicate Ideal<T>(rounds: seq<Round<T>>) {
    forall i :: 0 <= i < |rounds| ==> rounds[i].late == 0.0 && rounds[i].slack == 0.0
  }

  /** What others do up to the deadline. */
  function EventsBy<T>(during: seq<At<T>>, deadline: real): (events: seq<Event<T>>)
    ensures |events| <= |during|
    ensures forall i :: 0 <= i < |events| ==> during[i].event == events[i] && during[i].time <= deadline
    ensures |events| < |during| ==> during[|events|].time > deadline
  {
    if during == [] || during[0].time > deadline then []
    else [during[0].event] + EventsBy(during[1..], deadline)
  }

  // ----- pacing -----

  function Times(n: nat, x: real): real {
    if n == 0 then 0.0 else Times(n - 1, x) + x
  }

  /** The recursive form is multiplication. */
  lemma {:induction false} TimesIsProduct(n: nat, x: real)
    ensures Times(n, x) == n as real * x
  {
    if n > 0 {
      TimesIsProduct(n - 1, x);
      var m := (n - 1) as real;
      assert n as real == m + 1.0;
      assert (m + 1.0) * x == m * x + x;
    }
  }

  function CountFate(log: seq<Tick>, fate: TickFate): nat {
    if log == [] then 0 else CountFate(log[..|log| - 1], fate) + if log[|log| - 1].fate == fate then 1 else 0
  }

  // ----- which ticks the mailbox accepts -----

  /** The enqueued ticks in generation order, with what `msg` made of them. */
  ghost function EnqueuedOf<T>(log: seq<Tick>, msg: nat -> T): seq<Item<T>> {
    if log == [] then []
    else
      EnqueuedOf(log[..|log| - 1], msg)
      + if log[|log| - 1].fate.Enqueued? then [TickItem(|log| - 1, msg(|log| - 1))] else []
  }

  /** The interval's own entries among those a mailbox accepted, in that order. */
  ghost function TicksIn<T>(accepted: seq<Item<T>>): seq<Item<T>> {
    if accepted == [] then []
    else TicksIn(accepted[..|accepted| - 1]) + if accepted[|accepted| - 1].TickItem? then [accepted[|accepted| - 1]] else []
  }

  ghost predicate IsEnqueued<T>(log: seq<Tick>, msg: nat -> T, x: Item<T>) {
    x.TickItem? && x.n < |log| && log[x.n].fate.Enqueued? && x.msg == msg(x.n)
  }

  ghost predicate InTickOrder<T>(items: seq<Item<T>>) {
    forall i, j :: 0 <= i < j < |items| ==> items[i].TickItem? && items[j].TickItem? && items[i].n < items[j].n
  }

  /** `EnqueuedOf` lists each enqueued tick once, in the order the ticks were made, and no other. */
  lemma {:induction false} EnqueuedExactly<T>(log: seq<Tick>, msg: nat -> T)
    ensures forall x :: x in EnqueuedOf(log, msg) <==> IsEnqueued(log, msg, x)
    ensures InTickOrder(EnqueuedOf(log, msg))
  {
    if log != [] {
      var init := log[..|log| - 1];
      EnqueuedExactly(init, msg);
      var own := EnqueuedOf(init, msg);
      forall i | 0 <= i < |own|
        ensures own[i].TickItem? && own[i].n < |log| - 1
      {
        var x := own[i];
        assert x in own && IsEnqueued(init, msg, x);
      }
      assert InTickOrder(own);
      assert EnqueuedOf(log, msg) == own || EnqueuedOf(log, msg) == own + [TickItem(|log| - 1, msg(|log| - 1))];
    }
  }

  lemma {:induction false} TicksInMembers<T>(accepted: seq<Item<T>>, x: Item<T>)
    ensures x in TicksIn(accepted) <==> x in accepted && x.TickItem?
  {
    if accepted != [] {
      var n := |accepted| - 1;
      TicksInMembers(accepted[..n], x);
      assert accepted == accepted[..n] + [accepted[n]];
    }
  }

  /** The mailbox accepted the tick with index `k`. */
  ghost predicate WasAccepted<T>(accepted: seq<Item<T>>, k: nat) {
    exists i :: 0 <= i < |accepted| && accepted[i].TickItem? && accepted[i].n == k
  }

  /** A mailbox that accepted exactly the enqueued ticks accepted a tick if and only if it was enqueued. */
  lemma AcceptedIffEnqueued<T>(accepted: seq<Item<T>>, log: seq<Tick>, msg: nat -> T, k: nat)
    requires TicksIn(accepted) == EnqueuedOf(log, msg)
    ensures WasAccepted(accepted, k) <==> k < |log| && log[k].fate.Enqueued?
    ensures forall i :: 0 <= i < |accepted| && accepted[i].TickItem? ==> IsEnqueued(log, msg, accepted[i])
  {
    EnqueuedExactly(log, msg);
    forall i | 0 <= i < |accepted| && accepted[i].TickItem?
      ensures IsEnqueued(log, msg, accepted[i])
    {
      TicksInMembers(accepted, accepted[i]);
    }
    if k < |log| && log[k].fate.Enqueued? {
      var x := TickItem(k, msg(k));
      assert IsEnqueued(log, msg, x);
      TicksInMembers(accepted, x);
    }
  }

  /** Others, who push no ticks, leave the interval's own entries as they were. */
  lemma {:induction false} ForeignKeeps<T>(
    before: Ledger<Item<T>>, now: Ledger<Item<T>>, events: seq<Event<Item<T>>>, n: nat)
    requires Meanwhile(before, now, events) && AllForeign(events)
    requires |before.accepted| <= n <= |now.accepted|
    ensures TicksIn(now.accepted[..n]) == TicksIn(before.accepted)
  {
    if n == |before.accepted| {
      assert now.accepted[..n] == before.accepted;
    } else {
      ForeignKeeps(before, now, events, n - 1);
      assert PushedBy(events, now.accepted[n - 1]);
      var i :| 0 <= i < |events| && Pushes(events[i], now.accepted[n - 1]);
      assert Foreign(events[i]);
      assert now.accepted[..n][..n - 1] == now.accepted[..n - 1];
    }
  }

  lemma ForeignKeepsAll<T>(before: Ledger<Item<T>>, now: Ledger<Item<T>>, events: seq<Event<Item<T>>>)
    requires Meanwhile(before, now, events) && AllForeign(events)
    ensures TicksIn(now.accepted) == TicksIn(before.accepted)
  {
    MeanwhileExtends(before, now, events);
    ForeignKeeps(before, now, events, |now.accepted|);
    assert now.accepted[..|now.accepted|] == now.accepted;
  }

  /** Only the last tick can have failed or be in flight: a failure ends the task, and ticks are sent one at a time. */
  lemma {:induction false} OnlyLastOpen(log: seq<Tick>)
    requires forall k :: 0 <= k < |log| - 1 ==> log[k].fate.Enqueued? || log[k].fate.Skipped?
    ensures CountFate(log, TickFate.Failed) + CountFate(log, InFlight) <= 1
  {
    if |log| > 1 {
      var init := log[..|log| - 1];
      assert init[|init| - 1].fate == log[|log| - 2].fate;
      OnlyLastOpen(init);
      NoneOpen(init);
    }
  }

  lemma {:induction false} NoneOpen(log: seq<Tick>)
    requires forall k :: 0 <= k < |log| ==> log[k].fate.Enqueued? || log[k].fate.Skipped?
    ensures CountFate(log, TickFate.Failed) == CountFate(log, InFlight) == 0
  {
    if log != [] {
      NoneOpen(log[..|log| - 1]);
    }
  }

  function LastDone(log: seq<Tick>): real {
    if log == [] then 0.0 else log[|log| - 1].done
  }

  /** A tick is made at least one period after the task was done with the one before it. */
  ghost predicate Paced(log: seq<Tick>, period: real) {
    && (forall k :: 0 <= k < |log| - 1 ==> log[k].done + period <= log[k + 1].at)
    && forall k :: 0 <= k < |log| ==> Times(k + 1, period) <= log[k].at <= log[k].done
  }

  /**
   * Each tick is made one period after the task was done with the one before it, no later than the periods
   * plus one expiry per earlier tick, and waits no longer than the expiry.
   */
  ghost predicate Prompt(log: seq<Tick>, period: real, expiry: real) {
    forall k :: 0 <= k < |log| ==> PromptTick(log[k], DoneBefore(log, k), k, period, expiry)
  }

  function DoneBefore(log: seq<Tick>, k: nat): real
    requires k <= |log|
  {
    if k == 0 then 0.0 else log[k - 1].done
  }

  ghost predicate PromptTick(tick: Tick, before: real, k: nat, period: real, expiry: real) {
    && tick.at == before + period
    && tick.at <= Times(k + 1, period) + Times(k, expiry)
    && tick.done <= tick.at + expiry
    && (tick.fate.Skipped? ==> tick.done == tick.at + expiry)
  }

  lemma PacedGrows(log: seq<Tick>, tick: Tick, period: real)
    requires Paced(log, period) && period >= 0.0 && LastDone(log) + period <= tick.at <= tick.done
    ensures Paced(log + [tick], period)
  {
    var n := |log|;
    if n > 0 {
      assert Times(n, period) <= log[n - 1].at;
    }
    assert Times(n + 1, period) == Times(n, period) + period;
  }

  lemma PromptGrows(log: seq<Tick>, tick: Tick, period: real, expiry: real)
    requires Prompt(log, period, expiry) && tick.at == LastDone(log) + period && tick.done <= tick.at + expiry
    requires tick.fate.Skipped? ==> tick.done == tick.at + expiry
    ensures Prompt(log + [tick], period, expiry)
  {
    var next, n := log + [tick], |log|;
    if n > 0 {
      NextPrompt(log[n - 1], DoneBefore(log, n - 1), tick, n - 1, period, expiry);
    } else {
      assert Times(1, period) == Times(0, period) + period;
      assert PromptTick(tick, 0.0, 0, period, expiry);
    }
    hide PromptTick;
    forall k | 0 <= k < |next|
      ensures PromptTick(next[k], DoneBefore(next, k), k, period, expiry)
    {
      if k < n {
        assert next[k] == log[k] && DoneBefore(next, k) == DoneBefore(log, k);
      }
    }
  }

  lemma NextPrompt(last: Tick, before: real, tick: Tick, k: nat, period: real, expiry: real)
    requires PromptTick(last, before, k, period, expiry)
    requires tick.at == last.done + period && tick.done <= tick.at + expiry
    requires tick.fate.Skipped? ==> tick.done == tick.at + expiry
    ensures PromptTick(tick, last.done, k + 1, period, expiry)
  {
    assert Times(k + 2, period) == Times(k + 1, period) + period;
    assert Times(k + 1, expiry) == Times(k, expiry) + expiry;
  }

  lemma EnqueuedSnoc<T>(log: seq<Tick>, tick: Tick, msg: nat -> T)
    ensures EnqueuedOf(log + [tick], msg)
            == EnqueuedOf(log, msg) + if tick.fate.Enqueued? then [TickItem(|log|, msg(|log|))] else []
  {
    assert (log + [tick])[..|log|] == log;
  }

  lemma TicksSnoc<T>(accepted: seq<Item<T>>, n: nat, m: T)
    ensures TicksIn(accepted + [TickItem(n, m)]) == TicksIn(accepted) + [TickItem(n, m)]
  {
    assert (accepted + [TickItem(n, m)])[..|accepted|] == accepted;
  }

  lemma EmptyLog<T>(period: real, expiry: real, msg: nat -> T)
    ensures EnqueuedOf([], msg) == [] && Paced([], period) && Prompt([], period, expiry)
  {
  }

  // ----- the task -----

  /**
   * `interval_timeout` around the send of a strong sender: the send wins whenever it resolves by the deadline,
   * and is abandoned otherwise.  It is abandoned only when the mailbox is full and open at the deadline, and
   * then it has left no trace in it.
   */
  method TimedSend<T>(tx: Channel<T>, running: Flag, held: nat, p: T, during: seq<At<T>>, deadline: real)
    returns (sent: Option<Result<()>>, after: real, ghost waited: nat, ghost mid: Ledger<T>)
    requires tx.Valid() && 0 < held <= tx.strong && deadline >= 0.0 && Timed(during)
    modifies tx, running
    ensures tx.Valid() && held <= tx.strong && 0.0 <= after <= deadline && (running.up ==> old(running.up))
    ensures waited <= |EventsBy(during, deadline)| && waited <= |during|
    ensures after > 0.0 || waited > 0 ==> old(Full(tx.Now().box) && !tx.closed)
    ensures Meanwhile(old(tx.Now()), mid, EventsBy(during, deadline)[..waited])
    ensures sent.Some? ==> Submitted(WaitPush, ChannelClosed, p, old(running.up), old(tx.Now()), mid, tx.Now(), sent.value)
    ensures sent.Some? ==> after == if waited == 0 then 0.0 else during[waited - 1].time
    ensures sent.None? ==> after == deadline && tx.Now() == mid && Full(mid.box) && !mid.box.closed
  {
    hide Meanwhile, Submitted, Conserved;
    var events := EventsBy(during, deadline);
    var n;
    ghost var blocked;
    sent, n, blocked, mid := WaitIn(tx, running, held, ChannelClosed, p, events);
    waited := n;
    after := if sent.None? then deadline else if n == 0 then 0.0 else during[n - 1].time;
  }

  /** A tick and an upgraded sender to send it with: the sender and the future are dropped with the round. */
  method SendTick<T>(tx: Channel<Item<T>>, running: Flag, n: nat, m: T, r: Round<T>, expiry: real)
    returns (fate: TickFate, after: real)
    requires tx.Valid() && tx.strong > 0 && Plausible(r) && expiry >= 0.0
    modifies tx, running
    ensures tx.Valid() && 0.0 <= after <= expiry + r.slack
    ensures TicksIn(tx.accepted)
            == if fate.Enqueued? then TicksIn(old(tx.accepted)) + [TickItem(n, m)] else TicksIn(old(tx.accepted))
    ensures after > 0.0 ==> old(Full(tx.Now().box) && !tx.closed)
    ensures fate.Skipped? ==> after == expiry + r.slack && !r.observed && Full(tx.Now().box)
    ensures fate.InFlight? ==> r.observed && Full(tx.Now().box) && !tx.closed
    ensures fate.Failed? ==> !running.up || tx.closed
  {
    hide TicksIn, Meanwhile, AllForeign, Submitted, Conserved;
    tx.CloneRef();
    tx.CloneRef();
    tx.CloneRef();
    ghost var lent, up := tx.Now(), running.up;
    var sent, resolved, waited, mid := TimedSend(tx, running, 4, TickItem(n, m), r.during, expiry + r.slack);
    after := resolved;
    SendKeeps(lent, mid, tx.Now(), EventsBy(r.during, expiry + r.slack), waited, n, m, up, sent);
    if sent.None? {
      fate := if r.observed then InFlight else Skipped;
    } else {
      fate := if sent.value.Ok? then Enqueued else TickFate.Failed;
    }
    if !fate.InFlight? {
      DropSender(tx);
    }
  }

  /** The future's reference, then the three of the sender. */
  method DropSender<T>(tx: Channel<T>)
    requires tx.Valid() && tx.strong >= 4
    modifies tx`strong, tx`closed
    ensures tx.Valid() && tx.Now() == DropRefs(old(tx.Now()), 4)
  {
    tx.DropRef();
    tx.DropRef();
    tx.DropRef();
    tx.DropRef();
  }

  /** What the send of a tick leaves in the mailbox. */
  lemma SendKeeps<T>(
    before: Ledger<Item<T>>, mid: Ledger<Item<T>>, now: Ledger<Item<T>>, events: seq<Event<Item<T>>>, waited: nat,
    n: nat, m: T, up: bool, sent: Option<Result<()>>)
    requires waited <= |events| && Meanwhile(before, mid, events[..waited])
    requires forall i :: 0 <= i < |events| ==> Foreign(events[i])
    requires if sent.Some?
             then Submitted(WaitPush, ChannelClosed, TickItem(n, m), up, before, mid, now, sent.value)
             else now == mid
    ensures TicksIn(now.accepted)
            == if sent.Some? && sent.value.Ok? then TicksIn(before.accepted) + [TickItem(n, m)] else TicksIn(before.accepted)
    ensures sent.Some? && sent.value.Err? ==> !up || now.box.closed
  {
    ForeignKeepsAll(before, mid, events[..waited]);
    TicksSnoc(mid.accepted, n, m);
  }

  /**
   * The loop.  Among everything the mailbox ever accepts, the interval's own entries are exactly the enqueued
   * ticks in the order they were made, whatever others push, take or drop meanwhile: a skipped, failed or
   * pending tick is never among them.  The k-th tick is made no earlier than k periods after the start and,
   * with ideal timers, no later than the periods plus one expiry per earlier tick.  The task ends on a refused
   * send or a failed upgrade, and on nothing else.
   */
  method Run<T>(tx: Channel<Item<T>>, running: Flag, period: real, msg: nat -> T, rounds: seq<Round<T>>)
    returns (log: seq<Tick>)
    requires tx.Valid() && TicksIn(tx.accepted) == [] && AllPlausible(rounds) && period >= 0.0
    modifies tx, running
    ensures tx.Valid() && |log| <= |rounds|
    ensures TicksIn(tx.accepted) == EnqueuedOf(log, msg)
    ensures forall k: nat :: WasAccepted(tx.accepted, k) <==> k < |log| && log[k].fate.Enqueued?
    ensures forall k :: 0 <= k < |log| - 1 ==> log[k].fate.Enqueued? || log[k].fate.Skipped?
    ensures Paced(log, period) && (Ideal(rounds) ==> Prompt(log, period, Expiry(period)))
    ensures |log| < |rounds| ==>
              (log != [] && (log[|log| - 1].fate.Failed? || log[|log| - 1].fate.InFlight?)) || !Upgradable(tx.Now().box)
    ensures log != [] && log[|log| - 1].fate.Failed? ==> !running.up || tx.closed
    ensures log != [] && log[|log| - 1].fate.InFlight? ==>
              rounds[|log| - 1].observed && Full(tx.Now().box) && !tx.closed
  {
    hide TicksIn, EnqueuedOf, Paced, Prompt, Expiry, Times, Meanwhile, Plausible, AllForeign, WasAccepted, Conserved,
         Extends;
    var expiry := Expiry(period);
    assert expiry >= 0.0;
    var now, i := 0.0, 0;
    log := [];
    EmptyLog(period, expiry, msg);
    while i < |rounds|
      invariant 0 <= i <= |rounds| && |log| == i && now == LastDone(log)
      invariant tx.Valid() && TicksIn(tx.accepted) == EnqueuedOf(log, msg)
      invariant forall k :: 0 <= k < |log| ==> log[k].fate.Enqueued? || log[k].fate.Skipped?
      invariant Paced(log, period) && (Ideal(rounds) ==> Prompt(log, period, expiry))
    {
      var r := rounds[i];
      assert Plausible(r);
      PlausibleParts(r);
      ghost var before := tx.Now();
      Others(running, tx, 0, r.asleep);
      ForeignKeepsAll(before, tx.Now(), r.asleep);
      now := now + period + r.late;
      var ok := tx.Upgrade();
      if !ok {
        break;
      }
      var fate, after := SendTick(tx, running, |log|, msg(|log|), r, expiry);
      var tick := Tick(now, now + if fate.InFlight? then 0.0 else after, fate);
      EnqueuedSnoc(log, tick, msg);
      LogGrows(log, tick, period, expiry, r, Ideal(rounds));
      log := log + [tick];
      if fate.Failed? || fate.InFlight? {
        break;
      }
      now := tick.done;
      i := i + 1;
    }
    forall k: nat
      ensures WasAccepted(tx.accepted, k) <==> k < |log| && log[k].fate.Enqueued?
    {
      AcceptedIffEnqueued(tx.accepted, log, msg, k);
    }
  }

  lemma LogGrows<T>(log: seq<Tick>, tick: Tick, period: real, expiry: real, r: Round<T>, ideal: bool)
    requires Paced(log, period) && period >= 0.0 && r.late >= 0.0
    requires tick.at == LastDone(log) + period + r.late && tick.at <= tick.done <= tick.at + expiry + r.slack
    requires tick.fate.Skipped? ==> tick.done == tick.at + expiry + r.slack
    requires ideal ==> Prompt(log, period, expiry) && r.late == 0.0 && r.slack == 0.0
    ensures Paced(log + [tick], period) && (ideal ==> Prompt(log + [tick], period, expiry))
  {
    hide Paced, Prompt;
    PacedGrows(log, tick, period);
    if ideal {
      PromptGrows(log, tick, period, expiry);
    }
  }

  lemma PlausibleParts<T>(r: Round<T>)
    requires Plausible(r)
    ensures r.late >= 0.0 && r.slack >= 0.0 && AllForeign(r.asleep)
  {
  }
}

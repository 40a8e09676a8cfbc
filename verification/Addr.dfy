/**
 * The client side as the program runs it: every handle looks at the running flag first and pushes into
 * the shared mailbox afterwards, and anything may happen in between.
 */
module Addr {
  import opened Base
  import opened Mailbox
  import opened Behaviour
  import opened Protocol
  import opened Wakes
  import opened EventLoop
  import opened ClientInvariants
  import opened ProtocolInvariants
  import opened ProtocolProgress
  import opened ProtocolTheorems

  // ----- what other tasks do meanwhile -----

  /** `LoopTakes` dequeues in whichever turn the loop is at. */
  datatype Event<+T> = Client(act: Act<T>) | LoopTakes(turn: nat) | FlagFalls | ReceiverDrops

  ghost predicate Pushes<T>(event: Event<T>, x: T) {
    event == Client(TrySends(x)) || event == Client(ForceSends(x))
  }

  ghost predicate PushedBy<T>(events: seq<Event<T>>, x: T) {
    exists i :: 0 <= i < |events| && Pushes(events[i], x)
  }

  /** `now` comes from `before` by what the others did: whatever was accepted meanwhile was pushed by them. */
  ghost predicate Meanwhile<T>(before: Ledger<T>, now: Ledger<T>, events: seq<Event<T>>) {
    && Extends(before, now)
    && forall k :: |before.accepted| <= k < |now.accepted| ==> PushedBy(events, now.accepted[k])
  }

  lemma MeanwhileMore<T>(
    before: Ledger<T>, mid: Ledger<T>, now: Ledger<T>, events: seq<Event<T>>, more: seq<Event<T>>)
    requires Meanwhile(before, mid, events) && Meanwhile(mid, now, more)
    ensures Meanwhile(before, now, events + more)
  {
    forall k | |before.accepted| <= k < |now.accepted|
      ensures PushedBy(events + more, now.accepted[k])
    {
      if k < |mid.accepted| {
        assert PushedBy(events, now.accepted[k]);
        var i :| 0 <= i < |events| && Pushes(events[i], now.accepted[k]);
        assert Pushes((events + more)[i], now.accepted[k]);
      } else {
        assert PushedBy(more, now.accepted[k]);
        var i :| 0 <= i < |more| && Pushes(more[i], now.accepted[k]);
        assert Pushes((events + more)[|events| + i], now.accepted[k]);
      }
    }
  }

  lemma OnePushed<T>(before: Ledger<T>, now: Ledger<T>, event: Event<T>, x: T)
    requires Extends(before, now) && Pushes(event, x)
    requires now.accepted == before.accepted || now.accepted == before.accepted + [x]
    ensures Meanwhile(before, now, [event])
  {
    assert Pushes([event][0], x);
  }

  lemma NonePushed<T>(before: Ledger<T>, now: Ledger<T>, event: Event<T>)
    requires Extends(before, now) && now.accepted == before.accepted
    ensures Meanwhile(before, now, [event])
  {
  }

  /** One event of another task, which leaves the `held` references of this task alone. */
  method Other<T>(running: Flag, tx: Channel<T>, held: nat, event: Event<T>)
    requires tx.Valid() && held <= tx.strong
    modifies running, tx
    ensures tx.Valid() && held <= tx.strong
    ensures Meanwhile(old(tx.Now()), tx.Now(), [event]) && (running.up ==> old(running.up))
  {
    hide Meanwhile, Conserved;
    ghost var before := tx.Now();
    match event {
      case Client(TrySends(x)) =>
        var _ := tx.TrySend(x);
        OnePushed(before, tx.Now(), event, x);
      case Client(ForceSends(x)) =>
        var _ := tx.ForceSend(x);
        OnePushed(before, tx.Now(), event, x);
      case Client(Clones) => if tx.strong > 0 { tx.CloneRef(); }
      case Client(Releases) => if tx.strong > held { tx.DropRef(); }
      case LoopTakes(turn) => var _ := tx.Recv(turn);
      case FlagFalls => running.up := false;
      case ReceiverDrops => tx.DropReceiver();
    }
    if !(event.Client? && (event.act.TrySends? || event.act.ForceSends?)) {
      NonePushed(before, tx.Now(), event);
    }
  }

  /** Other tasks run. */
  method Others<T>(running: Flag, tx: Channel<T>, held: nat, events: seq<Event<T>>)
    requires tx.Valid() && held <= tx.strong
    modifies running, tx
    ensures tx.Valid() && held <= tx.strong
    ensures Meanwhile(old(tx.Now()), tx.Now(), events) && (running.up ==> old(running.up))
  {
    hide Meanwhile;
    NothingMeanwhile(tx.Now());
    assert events[..0] == [];
    for i := 0 to |events|
      invariant tx.Valid() && held <= tx.strong
      invariant Meanwhile(old(tx.Now()), tx.Now(), events[..i]) && (running.up ==> old(running.up))
    {
      ghost var mid := tx.Now();
      Other(running, tx, held, events[i]);
      MeanwhileMore(old(tx.Now()), mid, tx.Now(), events[..i], [events[i]]);
      assert events[..i + 1] == events[..i] + [events[i]];
    }
    assert events[..|events|] == events;
  }

  lemma NothingMeanwhile<T>(l: Ledger<T>)
    ensures Meanwhile(l, l, [])
  {
  }

  // ----- check, then push -----

  /**
   * What an entry point with the push `push` and the refusal `err` promises: with the flag down nothing
   * happens; otherwise `mid` is the mailbox it pushes into, which either refuses and is left alone or gets `p`
   * as its newest entry.
   */
  ghost predicate Submitted<T>(
    push: Push, err: ActorError, p: T, up: bool, before: Ledger<T>, mid: Ledger<T>, after: Ledger<T>, res: Result<()>) {
    && Extends(before, mid)
    && (res.Err? ==> res.error == err && after == mid)
    && (res.Err? <==> !up || mid.box.closed || (push.TryPush? && Full(mid.box)))
    && (!up ==> mid == before)
    && (res.Ok? ==> after == if push.ForcePush? then Force(mid, p) else Enqueue(mid, p))
  }

  /** An accepted payload is the newest entry, and whatever was accepted before it is still ahead of it. */
  lemma SubmittedLast<T>(
    push: Push, err: ActorError, p: T, up: bool, before: Ledger<T>, mid: Ledger<T>, after: Ledger<T>, res: Result<()>)
    requires Submitted(push, err, p, up, before, mid, after, res) && Conserved(mid) && !push.WaitPush?
    ensures Extends(before, after) && Conserved(after)
    ensures res.Ok? ==> before.accepted < after.accepted && after.accepted[|after.accepted| - 1] == p
    ensures res.Ok? ==> after.box.queue != [] && after.box.queue[|after.box.queue| - 1] == p
    ensures res.Ok? && |mid.fates| < |after.fates| ==> Full(mid.box) && push.ForcePush?
    ensures res.Err? ==> after.accepted == mid.accepted
  {
    if res.Ok? {
      if push.ForcePush? {
        ForceConserves(mid, p);
      } else {
        EnqueueConserves(mid, p);
      }
    }
  }

  /**
   * The promise of each entry point, spelled out: how it pushes, what it pushes, and with which error it
   * refuses.  `o` is where a call's answer goes.
   */
  ghost predicate Promise<A, R>(
    api: Api, script: Script<A, R>, o: nat, up: bool, before: Ledger<Payload<A, R>>, mid: Ledger<Payload<A, R>>,
    after: Ledger<Payload<A, R>>, res: Result<()>) {
    match api
    case AddrStop => Submitted(ForcePush, AlreadyStopped, Payload<A, R>.Stop, up, before, mid, after, res)
    case AddrRestart => Submitted(ForcePush, AlreadyStopped, Payload<A, R>.Restart, up, before, mid, after, res)
    case AddrCall => Submitted(TryPush, AlreadyStopped, Task(script, Some(o)), up, before, mid, after, res)
    case AddrSend => Submitted(WaitPush, AlreadyStopped, Task(script, None), up, before, mid, after, res)
    case AddrTrySend => Submitted(TryPush, AlreadyStopped, Task(script, None), up, before, mid, after, res)
    case SenderSend => Submitted(WaitPush, ChannelClosed, Task(script, None), up, before, mid, after, res)
    case SenderTrySend => Submitted(TryPush, ChannelClosed, Task(script, None), up, before, mid, after, res)
    case SenderForceSend => Submitted(ForcePush, ChannelClosed, Task(script, None), up, before, mid, after, res)
    case CallerCall => Submitted(WaitPush, ChannelClosed, Task(script, Some(o)), up, before, mid, after, res)
    case CtxStop => Submitted(ForcePush, AlreadyStopped, Payload<A, R>.Stop, up, before, mid, after, res)
    case CtxRestart => Submitted(ForcePush, AlreadyStopped, Payload<A, R>.Restart, up, before, mid, after, res)
    case AddrAwait => true
  }

  /**
   * The operations of module Protocol keep the same promises: between `Check` and `Deliver` the run may take
   * any steps `more`, and the push then does to the mailbox what the methods below do.
   */
  lemma StepsSubmit<A, R>(s: State<A, R>, o: nat, more: seq<Label<A, R>>)
    requires FullInv(s) && o < |s.ops| && s.ops[o].pc.Start? && !FromContext(s.ops[o].api) && !s.ops[o].api.AddrAwait?
    ensures Enabled(s, Label.Check(o))
    ensures !s.loop.flag ==>
              Step(s, Label.Check(o)).ops[o].pc
              == Done(Err(if s.ops[o].api in {SenderSend, SenderTrySend, SenderForceSend, CallerCall} then ChannelClosed
                          else AlreadyStopped))
    ensures s.loop.flag && IsRun(Step(s, Label.Check(o)), more) ==>
              var m := After(Step(s, Label.Check(o)), more);
              o < |m.ops| && m.ops[o].api == s.ops[o].api && (m.ops[o].pc.Cleared? ==> DeliverSubmits(s.led, m, o))
  {
    CheckStarts(s, o);
    if s.loop.flag && IsRun(Step(s, Label.Check(o)), more) {
      hide Enabled, Step, FullInv, CheckResult, DeliverSubmits;
      FullStep(s, Label.Check(o));
      RunGrows(Step(s, Label.Check(o)), more);
      Delivers(s.led, After(Step(s, Label.Check(o)), more), o);
    }
  }

  /** Whenever `Deliver` can push in `m`, its effect on the mailbox is the one promised to a caller that saw `before`. */
  ghost predicate DeliverSubmits<A, R>(before: Ledger<Payload<A, R>>, m: State<A, R>, o: nat)
    requires o < |m.ops|
  {
    var n, api := DoDeliver(m, o), m.ops[o].api;
    var res := if Refuses(m, o) then Err(RefusalOf(api)) else Ok(());
    var after := if Refuses(m, o) then m.led else Accepted(m, o).led;
    && Promise(api, m.ops[o].script, o, true, before, m.led, after, res)
    && n.led.accepted == after.accepted && n.led.fates == after.fates && n.led.box.queue == after.box.queue
    && |n.ops| == |m.ops|
    && n.ops[o].pc == if res.Err? then Done(Err(res.error))
                      else if api.AddrCall? || api.CallerCall? then Waiting else Done(Ok(None))
  }

  lemma Delivers<A, R>(before: Ledger<Payload<A, R>>, m: State<A, R>, o: nat)
    requires Extends(before, m.led) && o < |m.ops|
    ensures DeliverSubmits(before, m, o)
  {
    hide OpRefs, Extends;
  }

  lemma CheckStarts<A, R>(s: State<A, R>, o: nat)
    requires o < |s.ops| && s.ops[o].pc.Start? && !FromContext(s.ops[o].api) && !s.ops[o].api.AddrAwait?
    ensures Enabled(s, Label.Check(o))
    ensures var t := Step(s, Label.Check(o));
            && |t.ops| == |s.ops| && t.ops[o].api == s.ops[o].api
            && (if s.loop.flag then t.led == s.led else t.ops[o].pc == Done(Err(RefusalOf(s.ops[o].api))))
  {
    hide LoopStep;
  }

  /** Check the flag, force the payload in, map the error: `stop`, `restart` and a sender's `force_send`. */
  method ForceIn<T>(tx: Channel<T>, running: Flag, held: nat, err: ActorError, p: T, others: seq<Event<T>>)
    returns (res: Result<()>, ghost mid: Ledger<T>)
    requires tx.Valid() && 0 < held <= tx.strong
    modifies tx, running
    ensures tx.Valid() && held <= tx.strong && Conserved(mid)
    ensures Submitted(ForcePush, err, p, old(running.up), old(tx.Now()), mid, tx.Now(), res)
  {
    mid := tx.Now();
    if !running.up {
      return Err(err), mid;
    }
    Others(running, tx, held, others);
    mid := tx.Now();
    var ok := tx.ForceSend(p);
    res := if ok then Ok(()) else Err(err);
  }

  /** The same with `try_send`, which also fails on a full mailbox: `call`, `ping`, `try_send`. */
  method TryIn<T>(tx: Channel<T>, running: Flag, held: nat, err: ActorError, p: T, others: seq<Event<T>>)
    returns (res: Result<()>, ghost mid: Ledger<T>)
    requires tx.Valid() && 0 < held <= tx.strong
    modifies tx, running
    ensures tx.Valid() && held <= tx.strong && Conserved(mid)
    ensures Submitted(TryPush, err, p, old(running.up), old(tx.Now()), mid, tx.Now(), res)
  {
    mid := tx.Now();
    if !running.up {
      return Err(err), mid;
    }
    Others(running, tx, held, others);
    mid := tx.Now();
    var ok := tx.TrySend(p);
    res := if ok then Ok(()) else Err(err);
  }

  /**
   * The same with `send`, which waits for space while others run: it is resolved after the first `waited` of
   * their events, or still waits after all of them.  `blocked` are the mailboxes that kept it waiting.
   */
  method WaitIn<T>(tx: Channel<T>, running: Flag, held: nat, err: ActorError, p: T, others: seq<Event<T>>)
    returns (res: Option<Result<()>>, waited: nat, ghost blocked: seq<Ledger<T>>, ghost mid: Ledger<T>)
    requires tx.Valid() && 0 < held <= tx.strong
    modifies tx, running
    ensures tx.Valid() && held <= tx.strong && Conserved(mid) && (running.up ==> old(running.up))
    ensures waited <= |others| && Meanwhile(old(tx.Now()), mid, others[..waited])
    ensures |blocked| == waited && (if waited == 0 then mid == old(tx.Now()) else blocked[0] == old(tx.Now()))
    ensures forall k :: 0 <= k < waited ==>
              Full(blocked[k].box) && !blocked[k].box.closed && Meanwhile(old(tx.Now()), blocked[k], others[..k])
    ensures res.Some? ==>
              && Submitted(WaitPush, err, p, old(running.up), old(tx.Now()), mid, tx.Now(), res.value)
              && (res.value.Ok? ==> !Full(mid.box))
    ensures res.None? ==> old(running.up) && tx.Now() == mid && Full(mid.box) && !mid.box.closed && waited == |others|
  {
    hide Meanwhile;
    NothingMeanwhile(tx.Now());
    mid, waited, blocked := tx.Now(), 0, [];
    assert others[..0] == [];
    if !running.up {
      return Some(Err(err)), 0, blocked, mid;
    }
    while waited < |others| && !tx.closed && tx.capacity.Some? && tx.capacity.value <= |tx.queue|
      invariant 0 <= waited <= |others| && tx.Valid() && held <= tx.strong && (running.up ==> old(running.up))
      invariant Meanwhile(old(tx.Now()), tx.Now(), others[..waited])
      invariant |blocked| == waited && if blocked == [] then tx.Now() == old(tx.Now()) else blocked[0] == old(tx.Now())
      invariant forall k :: 0 <= k < waited ==>
                  Full(blocked[k].box) && !blocked[k].box.closed && Meanwhile(old(tx.Now()), blocked[k], others[..k])
    {
      mid := tx.Now();
      blocked := blocked + [mid];
      Other(running, tx, held, others[waited]);
      MeanwhileMore(old(tx.Now()), mid, tx.Now(), others[..waited], [others[waited]]);
      assert others[..waited + 1] == others[..waited] + [others[waited]];
      waited := waited + 1;
    }
    mid := tx.Now();
    MeanwhileExtends(old(tx.Now()), mid, others[..waited]);
    if !tx.closed && tx.capacity.Some? && tx.capacity.value <= |tx.queue| {
      return None, waited, blocked, mid;
    }
    var ok := tx.TrySend(p);
    res := Some(if ok then Ok(()) else Err(err));
  }

  lemma MeanwhileExtends<T>(before: Ledger<T>, now: Ledger<T>, events: seq<Event<T>>)
    requires Meanwhile(before, now, events)
    ensures Extends(before, now)
  {
  }

  /** `response.await`: the answer, `Canceled` if the reply sender was dropped, None while it is undecided. */
  function Awaited<R>(slot: Slot<R>): Option<Result<R>> {
    match slot
    case Unsent => None
    case Sent(v) => Some(Ok(v))
    case Lost => Some(Err(Canceled))
  }

  /** What has become of accepted entry `e`, seen from the caller that waits for its reply. */
  ghost function Verdict<A, R>(fates: seq<Fate>, turns: seq<Turn<A, R>>, e: nat): Option<Result<R>> {
    if e >= |fates| then None
    else match fates[e]
      case Displaced => Some(Err(Canceled))
      case Taken(p) => if p < |turns| then VerdictOf(turns[p].outcome) else None
  }

  ghost function VerdictOf<R>(outcome: Outcome<R>): Option<Result<R>> {
    match outcome
    case Completed(Some(v)) => Some(Ok(v))
    case Completed(None) => None
    case Pending => None
    case Cut => Some(Err(Canceled))
    case Broken => Some(Err(Canceled))
  }

  /**
   * The slot that `Call` awaits below, in a run: it resolves exactly when `Receive` is enabled, to the result
   * that `Receive` delivers, and this is the verdict on the call's own entry.  Only an entry that is still
   * queued when the receiver is gone may lose its reply sender without a verdict.
   */
  lemma StepsAwait<A, R>(s: State<A, R>, o: nat)
    requires FullInv(s) && o < |s.ops| && s.ops[o].pc.Waiting?
    ensures Enabled(s, Label<A, R>.Receive(o)) <==> Awaited(s.ops[o].slot).Some?
    ensures Enabled(s, Label<A, R>.Receive(o)) ==>
              Step(s, Label<A, R>.Receive(o)).ops[o].pc
              == Done(if s.ops[o].slot.Sent? then Ok(Some(s.ops[o].slot.value)) else Err(Canceled))
    ensures s.ops[o].entry.Some? && s.ops[o].entry.value < |s.led.accepted|
            && s.led.accepted[s.ops[o].entry.value] == PayloadOf(s.ops[o], o)
    ensures Awaited(s.ops[o].slot) == Verdict(s.led.fates, s.loop.turns, s.ops[o].entry.value)
            || (Awaited(s.ops[o].slot) == Some(Err(Canceled)) && !s.loop.rx && s.ops[o].entry.value >= |s.led.fates|)
  {
    OpFacts(s, o);
    ReceiveStep(s, o);
  }

  lemma ReceiveStep<A, R>(s: State<A, R>, o: nat)
    requires o < |s.ops| && s.ops[o].pc.Waiting?
    ensures Enabled(s, Label<A, R>.Receive(o)) <==> !s.ops[o].slot.Unsent?
    ensures Enabled(s, Label<A, R>.Receive(o)) ==>
              Step(s, Label<A, R>.Receive(o)).ops[o].pc
              == Done(if s.ops[o].slot.Sent? then Ok(Some(s.ops[o].slot.value)) else Err(Canceled))
  {
    hide LoopStep, OpRefs;
  }

  // ----- handles -----

  /** The strong address: one mailbox reference. */
  class Addr<A, R> {
    const tx: Channel<Payload<A, R>>
    const running: Flag

    ghost predicate Valid()
      reads this, tx
    {
      tx.Valid() && tx.strong > 0
    }

    /** Wraps a reference the caller already counted. */
    constructor (tx: Channel<Payload<A, R>>, running: Flag)
      ensures this.tx == tx && this.running == running
    {
      this.tx, this.running := tx, running;
    }

    method Stop(others: seq<Event<Payload<A, R>>>) returns (res: Result<()>, ghost mid: Ledger<Payload<A, R>>)
      requires Valid()
      modifies tx, running
      ensures Valid() && Conserved(mid)
      ensures Submitted(ForcePush, AlreadyStopped, Payload<A, R>.Stop, old(running.up), old(tx.Now()), mid, tx.Now(), res)
      ensures tx.Now() == if res.Ok? then Force(mid, Payload<A, R>.Stop) else mid
    {
      res, mid := ForceIn(tx, running, 1, AlreadyStopped, Payload.Stop, others);
    }

    method Restart(others: seq<Event<Payload<A, R>>>) returns (res: Result<()>, ghost mid: Ledger<Payload<A, R>>)
      requires Valid()
      modifies tx, running
      ensures Valid() && Conserved(mid)
      ensures Submitted(ForcePush, AlreadyStopped, Payload<A, R>.Restart,
                        old(running.up), old(tx.Now()), mid, tx.Now(), res)
      ensures tx.Now() == if res.Ok? then Force(mid, Payload<A, R>.Restart) else mid
    {
      res, mid := ForceIn(tx, running, 1, AlreadyStopped, Payload.Restart, others);
    }

    /** `call` (and `ping`, whose handler is empty): `slot` is what becomes of the reply sender. */
    method Call(script: Script<A, R>, reply: nat, others: seq<Event<Payload<A, R>>>, slot: Slot<R>)
      returns (res: Option<Result<R>>, ghost sent: Result<()>, ghost mid: Ledger<Payload<A, R>>)
      requires Valid()
      modifies tx, running
      ensures Valid() && Conserved(mid)
      ensures Submitted(TryPush, AlreadyStopped, Task(script, Some(reply)),
                        old(running.up), old(tx.Now()), mid, tx.Now(), sent)
      ensures Full(mid.box) ==> sent.Err? && tx.Now() == mid
      ensures tx.Now() == if sent.Ok? then Enqueue(mid, Task(script, Some(reply))) else mid
      ensures res == if sent.Ok? then Awaited(slot) else Some(Err(AlreadyStopped))
    {
      var pushed;
      pushed, mid := TryIn(tx, running, 1, AlreadyStopped, Task(script, Some(reply)), others);
      sent := pushed;
      res := if pushed.Ok? then Awaited(slot) else Some(Err(pushed.error));
    }

    method Send(script: Script<A, R>, others: seq<Event<Payload<A, R>>>)
      returns (res: Option<Result<()>>, ghost mid: Ledger<Payload<A, R>>)
      requires Valid()
      modifies tx, running
      ensures Valid() && Conserved(mid)
      ensures res.Some? ==>
                && Submitted(WaitPush, AlreadyStopped, Task(script, None),
                             old(running.up), old(tx.Now()), mid, tx.Now(), res.value)
                && tx.Now() == (if res.value.Ok? then Enqueue(mid, Task(script, None)) else mid)
                && (res.value.Ok? ==> !Full(mid.box))
      ensures res.None? ==> tx.Now() == mid && Extends(old(tx.Now()), mid) && Full(mid.box) && !mid.box.closed
    {
      var waited;
      ghost var blocked;
      res, waited, blocked, mid := WaitIn(tx, running, 1, AlreadyStopped, Task(script, None), others);
    }

    method TrySend(script: Script<A, R>, others: seq<Event<Payload<A, R>>>)
      returns (res: Result<()>, ghost mid: Ledger<Payload<A, R>>)
      requires Valid()
      modifies tx, running
      ensures Valid() && Conserved(mid)
      ensures Submitted(TryPush, AlreadyStopped, Task(script, None), old(running.up), old(tx.Now()), mid, tx.Now(), res)
      ensures Full(mid.box) ==> res.Err? && tx.Now() == mid
      ensures tx.Now() == if res.Ok? then Enqueue(mid, Task(script, None)) else mid
    {
      res, mid := TryIn(tx, running, 1, AlreadyStopped, Task(script, None), others);
    }

    method Clone() returns (a: Addr<A, R>)
      requires Valid()
      modifies tx`strong
      ensures a.Valid() && a.tx == tx && a.running == running && fresh(a)
      ensures tx.Now() == AddRefs(old(tx.Now()), 1)
    {
      tx.CloneRef();
      a := new Addr(tx, running);
    }

    /** Dropping the address; the last strong reference closes the mailbox. */
    method Drop()
      requires Valid()
      modifies tx
      ensures tx.Valid() && tx.Now() == DropRefs(old(tx.Now()), 1)
    {
      tx.DropRef();
    }

    /** `sender`: the address is cloned and consumed on the way, and three closures keep one reference each. */
    method Sender() returns (s: Sender<A, R>)
      requires Valid()
      modifies tx`strong, tx`closed
      ensures s.Valid() && s.tx == tx && s.running == running && fresh(s)
      ensures tx.Now() == AddRefs(old(tx.Now()), 3)
    {
      tx.CloneRef();
      tx.CloneRef();
      s := new Sender(tx, running);
      tx.DropRef();
    }

    /** `caller`: likewise, with a single closure. */
    method Caller() returns (c: Caller<A, R>)
      requires Valid()
      modifies tx`strong, tx`closed
      ensures c.Valid() && c.tx == tx && c.running == running && fresh(c)
      ensures tx.Now() == AddRefs(old(tx.Now()), 1)
    {
      tx.CloneRef();
      tx.CloneRef();
      c := new Caller(tx, running);
      tx.DropRef();
    }

    /** `weak_sender` and `weak_caller` borrow two references on the way and keep none. */
    method Weak() returns (w: Weak<A, R>)
      requires Valid()
      modifies tx`strong, tx`closed
      ensures Valid() && w.tx == tx && w.running == running && fresh(w)
      ensures tx.Now() == old(tx.Now())
    {
      tx.CloneRef();
      tx.CloneRef();
      w := new Weak(tx, running);
      tx.DropRef();
      tx.DropRef();
    }
  }

  /** The strong sender: its `send`, `try_send` and `force_send` closures hold one reference each. */
  class Sender<A, R> {
    const tx: Channel<Payload<A, R>>
    const running: Flag

    ghost predicate Valid()
      reads this, tx
    {
      tx.Valid() && tx.strong >= 3
    }

    /** `Sender::new` takes over the reference it is given and clones it twice. */
    constructor (tx: Channel<Payload<A, R>>, running: Flag)
      requires tx.Valid() && tx.strong > 0
      modifies tx`strong
      ensures Valid() && this.tx == tx && this.running == running
      ensures tx.Now() == AddRefs(old(tx.Now()), 2)
    {
      this.tx, this.running := tx, running;
      new;
      tx.CloneRef();
      tx.CloneRef();
    }

    /** `send`: the future clones a reference of its own before the caller polls it. */
    method Send(script: Script<A, R>, others: seq<Event<Payload<A, R>>>)
      returns (res: Option<Result<()>>, ghost mid: Ledger<Payload<A, R>>, ghost after: Ledger<Payload<A, R>>)
      requires Valid()
      modifies tx, running
      ensures Valid() && Conserved(mid) && Extends(old(tx.Now()), mid)
      ensures res.Some? ==>
                && Submitted(WaitPush, ChannelClosed, Task(script, None),
                             old(running.up), AddRefs(old(tx.Now()), 1), mid, after, res.value)
                && after == (if res.value.Ok? then Enqueue(mid, Task(script, None)) else mid)
                && (res.value.Ok? ==> !Full(mid.box))
                && after.box.strong > 3 && tx.Now() == DropRefs(after, 1)
      ensures res.None? ==> tx.Now() == mid && Full(mid.box) && !mid.box.closed
    {
      tx.CloneRef();
      var waited;
      ghost var blocked;
      res, waited, blocked, mid := WaitIn(tx, running, 4, ChannelClosed, Task(script, None), others);
      after := tx.Now();
      if res.Some? {
        tx.DropRef();
      }
    }

    method TrySend(script: Script<A, R>, others: seq<Event<Payload<A, R>>>)
      returns (res: Result<()>, ghost mid: Ledger<Payload<A, R>>)
      requires Valid()
      modifies tx, running
      ensures Valid() && Conserved(mid)
      ensures Submitted(TryPush, ChannelClosed, Task(script, None), old(running.up), old(tx.Now()), mid, tx.Now(), res)
      ensures Full(mid.box) ==> res.Err? && tx.Now() == mid
      ensures tx.Now() == if res.Ok? then Enqueue(mid, Task(script, None)) else mid
    {
      res, mid := TryIn(tx, running, 3, ChannelClosed, Task(script, None), others);
    }

    method ForceSend(script: Script<A, R>, others: seq<Event<Payload<A, R>>>)
      returns (res: Result<()>, ghost mid: Ledger<Payload<A, R>>)
      requires Valid()
      modifies tx, running
      ensures Valid() && Conserved(mid)
      ensures Submitted(ForcePush, ChannelClosed, Task(script, None), old(running.up), old(tx.Now()), mid, tx.Now(), res)
      ensures tx.Now() == if res.Ok? then Force(mid, Task(script, None)) else mid
    {
      res, mid := ForceIn(tx, running, 3, ChannelClosed, Task(script, None), others);
    }

    method Drop()
      requires Valid()
      modifies tx
      ensures tx.Valid() && tx.Now() == DropRefs(old(tx.Now()), 3)
    {
      tx.DropRef();
      tx.DropRef();
      tx.DropRef();
    }
  }

  /** The strong caller: one closure, which clones its reference per call and waits for space. */
  class Caller<A, R> {
    const tx: Channel<Payload<A, R>>
    const running: Flag

    ghost predicate Valid()
      reads this, tx
    {
      tx.Valid() && tx.strong > 0
    }

    constructor (tx: Channel<Payload<A, R>>, running: Flag)
      requires tx.Valid() && tx.strong > 0
      ensures Valid() && this.tx == tx && this.running == running
    {
      this.tx, this.running := tx, running;
    }

    method Call(script: Script<A, R>, reply: nat, others: seq<Event<Payload<A, R>>>, slot: Slot<R>)
      returns (res: Option<Result<R>>, ghost sent: Option<Result<()>>,
               ghost mid: Ledger<Payload<A, R>>, ghost after: Ledger<Payload<A, R>>)
      requires Valid()
      modifies tx, running
      ensures Valid() && Conserved(mid)
      ensures sent.Some? ==>
                && Submitted(WaitPush, ChannelClosed, Task(script, Some(reply)), old(running.up), AddRefs(old(tx.Now()), 1),
                             mid, after, sent.value)
                && after == (if sent.value.Ok? then Enqueue(mid, Task(script, Some(reply))) else mid)
                && (sent.value.Ok? ==> !Full(mid.box))
                && after.box.strong > 1
      ensures res == if sent.None? then None
                     else if sent.value.Ok? then Awaited(slot) else Some(Err(ChannelClosed))
      ensures tx.Now() == if res.Some? then DropRefs(after, 1) else after
    {
      tx.CloneRef();
      var pushed, waited;
      ghost var blocked;
      pushed, waited, blocked, mid := WaitIn(tx, running, 2, ChannelClosed, Task(script, Some(reply)), others);
      sent, after := pushed, tx.Now();
      if pushed.None? {
        res := None;
      } else if pushed.value.Err? {
        res := Some(Err(pushed.value.error));
      } else {
        res := Awaited(slot);
      }
      if res.Some? {
        tx.DropRef();
      }
    }
  }

  /** Any weak handle, and the weak channel end of a context: no reference, only the way to upgrade. */
  class Weak<A, R> {
    const tx: Channel<Payload<A, R>>
    const running: Flag

    constructor (tx: Channel<Payload<A, R>>, running: Flag)
      ensures this.tx == tx && this.running == running
    {
      this.tx, this.running := tx, running;
    }

    /** `WeakAddr::upgrade`: a new strong address unless the mailbox is closed or nobody else holds it. */
    method Upgrade() returns (a: Option<Addr<A, R>>)
      requires tx.Valid()
      modifies tx`strong
      ensures tx.Valid() && (a.Some? <==> !old(tx.closed) && old(tx.strong) > 0)
      ensures a.Some? ==> a.value.Valid() && a.value.tx == tx && a.value.running == running && fresh(a.value)
      ensures tx.Now() == if a.Some? then AddRefs(old(tx.Now()), 1) else old(tx.Now())
    {
      var ok := tx.Upgrade();
      a := None;
      if ok {
        var addr := new Addr(tx, running);
        a := Some(addr);
      }
    }

    /** `WeakSender::upgrade`. */
    method UpgradeSender() returns (s: Option<Sender<A, R>>)
      requires tx.Valid()
      modifies tx`strong
      ensures tx.Valid() && (s.Some? <==> !old(tx.closed) && old(tx.strong) > 0)
      ensures s.Some? ==> s.value.Valid() && s.value.tx == tx && s.value.running == running && fresh(s.value)
      ensures tx.Now() == if s.Some? then AddRefs(old(tx.Now()), 3) else old(tx.Now())
    {
      var ok := tx.Upgrade();
      s := None;
      if ok {
        var sender := new Sender(tx, running);
        s := Some(sender);
      }
    }

    /** `WeakAddr::try_stop`: a temporary address stops the actor. */
    method TryStop(others: seq<Event<Payload<A, R>>>)
      returns (res: Result<()>, ghost mid: Ledger<Payload<A, R>>, ghost after: Ledger<Payload<A, R>>)
      requires tx.Valid()
      modifies tx, running
      ensures tx.Valid() && Conserved(mid)
      ensures old(tx.closed) || old(tx.strong) == 0 ==> res == Err(ActorDropped) && tx.Now() == old(tx.Now())
      ensures !old(tx.closed) && old(tx.strong) > 0 ==>
                && Submitted(ForcePush, AlreadyStopped, Payload<A, R>.Stop,
                             old(running.up), AddRefs(old(tx.Now()), 1), mid, after, res)
                && after.box.strong > 0 && tx.Now() == DropRefs(after, 1)
    {
      mid, after := tx.Now(), tx.Now();
      var a := Upgrade();
      if a.None? {
        return Err(ActorDropped), mid, after;
      }
      res, mid := a.value.Stop(others);
      after := tx.Now();
      a.value.Drop();
    }

    /** `Context::stop`: no flag is consulted, the upgrade alone decides. */
    method ContextStop(others: seq<Event<Payload<A, R>>>)
      returns (res: Result<()>, ghost mid: Ledger<Payload<A, R>>)
      requires tx.Valid()
      modifies tx, running
      ensures tx.Valid() && Conserved(mid)
      ensures res == Err(ActorDropped) <==> old(tx.closed) || old(tx.strong) == 0
      ensures res == Err(ActorDropped) ==> tx.Now() == old(tx.Now())
      ensures res != Err(ActorDropped) ==>
                && Extends(old(tx.Now()), mid) && mid.box.strong > 0
                && res == (if mid.box.closed then Err(AlreadyStopped) else Ok(()))
                && tx.Now() == DropRefs(if res.Ok? then Force(mid, Payload<A, R>.Stop) else mid, 1)
    {
      res, mid := ForceFromContext(Payload.Stop, others);
    }
    /** `Context::restart`: likewise. */
    method ContextRestart(others: seq<Event<Payload<A, R>>>)
      returns (res: Result<()>, ghost mid: Ledger<Payload<A, R>>)
      requires tx.Valid()
      modifies tx, running
      ensures tx.Valid() && Conserved(mid)
      ensures res == Err(ActorDropped) <==> old(tx.closed) || old(tx.strong) == 0
      ensures res == Err(ActorDropped) ==> tx.Now() == old(tx.Now())
      ensures res != Err(ActorDropped) ==>
                && Extends(old(tx.Now()), mid) && mid.box.strong > 0
                && res == (if mid.box.closed then Err(AlreadyStopped) else Ok(()))
                && tx.Now() == DropRefs(if res.Ok? then Force(mid, Payload<A, R>.Restart) else mid, 1)
    {
      res, mid := ForceFromContext(Payload.Restart, others);
    }
    method ForceFromContext(p: Payload<A, R>, others: seq<Event<Payload<A, R>>>)
      returns (res: Result<()>, ghost mid: Ledger<Payload<A, R>>)
      requires tx.Valid()
      modifies tx, running
      ensures tx.Valid() && Conserved(mid)
      ensures res == Err(ActorDropped) <==> old(tx.closed) || old(tx.strong) == 0
      ensures res == Err(ActorDropped) ==> tx.Now() == old(tx.Now())
      ensures res != Err(ActorDropped) ==>
                && Extends(old(tx.Now()), mid) && mid.box.strong > 0
                && res == (if mid.box.closed then Err(AlreadyStopped) else Ok(()))
                && tx.Now() == DropRefs(if res.Ok? then Force(mid, p) else mid, 1)
    {
      mid := tx.Now();
      var ok := tx.Upgrade();
      if !ok {
        return Err(ActorDropped), mid;
      }
      Others(running, tx, 1, others);
      mid := tx.Now();
      var sent := tx.ForceSend(p);
      res := if sent then Ok(()) else Err(AlreadyStopped);
      tx.DropRef();
    }
  }

  // ----- joining -----

  /** `ActorHandle` on tokio: the task can be awaited once, whoever asks first. */
  class ActorHandle<A> {
    /** What the spawned loop resolves to. */
    const finish: Finish<A>
    var handle: Option<()>
    ghost var joined: seq<Option<A>>

    ghost predicate Valid()
      reads this
    {
      && (handle.Some? <==> joined == [])
      && (joined != [] ==> joined[0] == (if finish.Returned? then Some(finish.actor) else None))
      && forall j :: 0 < j < |joined| ==> joined[j] == None
    }

    constructor (finish: Finish<A>)
      requires !finish.Suspended?
      ensures Valid() && this.finish == finish && joined == []
    {
      this.finish, handle, joined := finish, Some(()), [];
    }

    method Join() returns (actor: Option<A>)
      requires Valid()
      modifies this
      ensures Valid() && joined == old(joined) + [actor]
      ensures actor.Some? <==> old(joined) == [] && finish.Returned?
      ensures actor.Some? ==> finish == Returned(actor.value)
    {
      if handle.Some? {
        handle := None;
        actor := if finish.Returned? then Some(finish.actor) else None;
      } else {
        actor := None;
      }
      joined := joined + [actor];
    }
  }

  class OwningAddr<A, R> {
    const addr: Addr<A, R>
    const handle: ActorHandle<A>

    constructor (addr: Addr<A, R>, handle: ActorHandle<A>)
      ensures this.addr == addr && this.handle == handle
    {
      this.addr, this.handle := addr, handle;
    }

    /** Stop, then join; a refused stop returns before any join, even though the actor may be there to take. */
    method Consume(others: seq<Event<Payload<A, R>>>)
      returns (res: Result<A>, ghost stopped: Result<()>, ghost mid: Ledger<Payload<A, R>>)
      requires addr.Valid() && handle.Valid()
      modifies addr.tx, addr.running, handle
      ensures addr.Valid() && handle.Valid() && Conserved(mid)
      ensures Submitted(ForcePush, AlreadyStopped, Payload<A, R>.Stop,
                        old(addr.running.up), old(addr.tx.Now()), mid, addr.tx.Now(), stopped)
      ensures res.Ok? ==> stopped.Ok? && old(handle.joined) == [] && handle.finish == Returned(res.value)
      ensures res.Err? ==> res.error == AlreadyStopped
                           && (stopped.Err? || old(handle.joined) != [] || !handle.finish.Returned?)
      ensures handle.joined == old(handle.joined) + if stopped.Ok? then [if res.Ok? then Some(res.value) else None] else []
    {
      var sent;
      sent, mid := addr.Stop(others);
      stopped := sent;
      if sent.Err? {
        return Err(sent.error), stopped, mid;
      }
      var actor := handle.Join();
      res := if actor.Some? then Ok(actor.value) else Err(AlreadyStopped);
    }
  }
}

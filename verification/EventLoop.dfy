/**
 * The two event loops as the program runs them: an actor value reassigned event by event, early
 * returns, and a stop notifier that publishes the end of the loop.  Every action is mirrored by a step
 * of the loop in module Protocol, so what is proved of the step system holds of these methods.
 */
module EventLoop {
  import opened Base
  import opened Mailbox
  import opened Behaviour
  import opened Protocol
  import opened LoopInvariants
  import opened ProtocolInvariants
  import opened Wakes

  // ----- the termination signal -----

  class Flag {
    var up: bool
    constructor ()
      ensures up
    {
      up := true;
    }
  }

  /** The receiving side of the one-shot: how many values it was sent. */
  class OneShot {
    var values: nat
    constructor ()
      ensures values == 0
    {
      values := 0;
    }
  }

  class StopNotifier {
    const running: Flag
    const shot: OneShot
    var sender: Option<OneShot>

    /** The one-shot was sent exactly if the sender is gone, and then the flag is down. */
    ghost predicate Valid()
      reads this, running, shot
    {
      && (sender.Some? ==> sender.value == shot && shot.values == 0 && running.up)
      && (sender.None? ==> shot.values == 1 && !running.up)
    }

    constructor (running: Flag, shot: OneShot)
      requires running.up && shot.values == 0
      ensures Valid() && sender.Some? && this.running == running && this.shot == shot
    {
      this.running, this.shot := running, shot;
      sender := Some(shot);
    }

    /** `notify` consumes the notifier, whose `drop` then finds the sender already taken. */
    method Notify()
      requires Valid()
      modifies this, running, shot
      ensures Valid() && !running.up && shot.values == 1 && sender.None?
    {
      running.up := false;
      if sender.Some? {
        var tx := sender.value;
        sender := None;
        tx.values := tx.values + 1;
      }
      Drop();
    }

    /** Dropping the notifier does the same, so an exit that never reached `notify` publishes its end too. */
    method Drop()
      requires sender.Some? ==> sender.value == shot && shot.values == 0
      requires sender.None? ==> shot.values == 1
      modifies this, running, shot
      ensures Valid() && !running.up && shot.values == 1 && sender.None?
    {
      running.up := false;
      if sender.Some? {
        var tx := sender.value;
        sender := None;
        tx.values := tx.values + 1;
      }
    }
  }

  // ----- the environment of a loop -----

  datatype Raced<+R> = InTime(answer: R) | Elapsed | Panicking

  /** `m` comes from `l` by what clients do: entries are accepted or displaced, never taken. */
  ghost predicate Interfered<T>(l: Ledger<T>, m: Ledger<T>) {
    && Extends(l, m)
    && |m.fates| <= |m.accepted|
    && forall e :: |l.fates| <= e < |m.fates| ==> m.fates[e].Displaced?
  }

  lemma InterferedTwice<T>(k: Ledger<T>, l: Ledger<T>, m: Ledger<T>)
    requires Interfered(k, l) && Interfered(l, m)
    ensures Interfered(k, m)
  {
  }

  method Interfere<T>(c: Channel<T>, acts: seq<Act<T>>)
    requires c.Valid()
    modifies c
    ensures c.Valid() && Interfered(old(c.Now()), c.Now()) && c.Now() == Acted(old(c.Now()), acts)
  {
    hide Interfered, Acted, Conserved;
    ActedNext(c.Now(), acts, 0);
    NothingDone(c.Now());
    for i := 0 to |acts|
      invariant c.Valid() && Interfered(old(c.Now()), c.Now()) && c.Now() == Acted(old(c.Now()), acts[..i])
    {
      ghost var before := c.Now();
      ActedNext(old(c.Now()), acts, i);
      DoAct(c, acts[i]);
      InterferedTwice(old(c.Now()), before, c.Now());
    }
    assert acts[..|acts|] == acts;
  }

  lemma NothingDone<T>(l: Ledger<T>)
    requires Conserved(l)
    ensures Interfered(l, l)
  {
  }

  /** One client acts. */
  method DoAct<T>(c: Channel<T>, act: Act<T>)
    requires c.Valid()
    modifies c
    ensures c.Valid() && Interfered(old(c.Now()), c.Now()) && c.Now() == AfterAct(old(c.Now()), act)
  {
    match act {
      case TrySends(x) => var _ := c.TrySend(x);
      case ForceSends(x) => var _ := c.ForceSend(x);
      case Clones => if c.strong > 0 { c.CloneRef(); }
      case Releases => if c.strong > 0 { c.DropRef(); }
    }
  }

  lemma CorrespondsInterfered<A, R>(turns: seq<Turn<A, R>>, l: Ledger<Payload<A, R>>, m: Ledger<Payload<A, R>>)
    requires Corresponds(turns, l.fates, l.accepted) && Interfered(l, m)
    ensures Corresponds(turns, m.fates, m.accepted)
  {
  }

  // ----- the loop it refines -----

  /** The loop of module Protocol after `steps`, each enabled on the mailbox it then saw; None if one was not. */
  ghost function LoopAfter<A, R>(cfg: Config<A>, steps: seq<(Ledger<Payload<A, R>>, Label<A, R>)>): Option<Loop<A, R>> {
    if steps == [] then Some(InitState<A, R>(cfg).loop)
    else
      var before := LoopAfter(cfg, steps[..|steps| - 1]);
      var (led, l) := steps[|steps| - 1];
      if before.Some? && LoopLabel(l) && LoopEnabled(cfg, before.value, led.box, l)
      then Some(LoopNext(cfg, before.value, led, l)) else None
  }

  lemma LoopAfterSnoc<A, R>(
    cfg: Config<A>, steps: seq<(Ledger<Payload<A, R>>, Label<A, R>)>, lp: Loop<A, R>,
    led: Ledger<Payload<A, R>>, l: Label<A, R>)
    requires LoopAfter(cfg, steps) == Some(lp) && LoopLabel(l) && LoopEnabled(cfg, lp, led.box, l)
    ensures LoopAfter(cfg, steps + [(led, l)]) == Some(LoopNext(cfg, lp, led, l))
  {
    hide LoopEnabled, LoopNext;
    assert (steps + [(led, l)])[..|steps|] == steps;
  }

  /** Whatever mailboxes a loop sees, all its invariants hold after every step. */
  lemma {:induction false} LoopAfterKeeps<A, R>(
    cfg: Config<A>, steps: seq<(Ledger<Payload<A, R>>, Label<A, R>)>)
    ensures LoopAfter(cfg, steps).Some? ==> LoopInv(cfg, LoopAfter(cfg, steps).value)
  {
    hide LoopInv, LoopEnabled, LoopNext;
    if steps == [] {
      InitLoop<A, R>(cfg);
    } else if LoopAfter(cfg, steps).Some? {
      LoopAfterKeeps(cfg, steps[..|steps| - 1]);
      var (led, l) := steps[|steps| - 1];
      LoopInvStep(cfg, LoopAfter(cfg, steps[..|steps| - 1]).value, led, l);
    }
  }

  /** Only `Recv` moves the correspondence between turns and taken entries. */
  lemma StepCorresponds<A, R>(
    cfg: Config<A>, lp: Loop<A, R>, led: Ledger<Payload<A, R>>, l: Label<A, R>)
    requires Corresponds(lp.turns, led.fates, led.accepted)
    requires LoopLabel(l) && LoopEnabled(cfg, lp, led.box, l) && !l.Recv?
    ensures Corresponds(LoopNext(cfg, lp, led, l).turns, led.fates, led.accepted)
  {
    hide LoopNext, LoopEnabled, Corresponds;
    var np := LoopNext(cfg, lp, led, l);
    if Appends(l) {
      StreamTurn(cfg, lp, led, l);
      CorrespondsAppended(lp.turns, np.turns, led.fates, led.accepted);
    } else if Revises(l) || (l.Panic? && Working(lp)) {
      ReviseTurns(cfg, lp, led, l);
      CorrespondsRevised(lp.turns, np.turns, led.fates, led.accepted);
    } else {
      KeepTurns(cfg, lp, led, l);
    }
  }

  lemma RecvCorresponds<A, R>(cfg: Config<A>, lp: Loop<A, R>, led: Ledger<Payload<A, R>>)
    requires Corresponds(lp.turns, led.fates, led.accepted) && Conserved(led) && led.box.queue != []
    ensures var np := TakePayload(cfg, lp, led.box.queue[0], |led.fates|);
            Corresponds(np.turns, led.fates + [Taken(|lp.turns|)], led.accepted)
  {
    hide TakePayload, Corresponds;
    DequeueConserves(led, |lp.turns|);
    RecvTurn(cfg, lp, led.box.queue[0], |led.fates|);
    CorrespondsTake(lp.turns, TakePayload(cfg, lp, led.box.queue[0], |led.fates|).turns, led.fates, led.accepted);
  }

  // ----- the loops -----

  class EventLoop<A, R> {
    const cfg: Config<A>
    const rx: Channel<Payload<A, R>>
    const stop: StopNotifier
    /** Whether the context, and with it its tasks and children, is still held. */
    var ctx: bool
    ghost var lp: Loop<A, R>
    ghost var steps: seq<(Ledger<Payload<A, R>>, Label<A, R>)>

    /** The mirror is a loop of module Protocol, and its turns are what the mailbox's history says. */
    ghost predicate Mirrored()
      reads this, rx
    {
      && rx.Valid() && LoopInv(cfg, lp) && LoopAfter(cfg, steps) == Some(lp)
      && Corresponds(lp.turns, rx.fates, rx.accepted)
    }

    /** What the program holds is what the mirrored loop says it holds. */
    ghost predicate Held()
      reads this, rx, stop, stop.running, stop.shot
    {
      && stop.Valid() && stop.running.up == lp.flag && stop.shot.values == lp.shots
      && ctx == lp.ctx && (!lp.rx ==> rx.closed)
    }

    ghost predicate Valid()
      reads this, rx, stop, stop.running, stop.shot
    {
      Mirrored() && Held()
    }

    constructor (cfg: Config<A>, rx: Channel<Payload<A, R>>, stop: StopNotifier)
      requires rx.Valid() && rx.fates == [] && stop.Valid() && stop.running.up
      ensures Valid() && lp.phase.Spawned? && this.cfg == cfg && this.rx == rx && this.stop == stop
    {
      this.cfg, this.rx, this.stop := cfg, rx, stop;
      ctx, lp, steps := true, InitState<A, R>(cfg).loop, [];
      InitLoop<A, R>(cfg);
    }

    /** Mirror an action other than a receive. */
    ghost method Mirror(l: Label<A, R>)
      requires Mirrored() && LoopLabel(l) && LoopEnabled(cfg, lp, rx.Now().box, l) && !l.Recv?
      modifies this`lp, this`steps
      ensures Mirrored() && lp == LoopNext(cfg, old(lp), rx.Now(), l)
    {
      hide LoopNext, LoopEnabled, LoopAfter, Corresponds, LoopInv;
      LoopInvStep(cfg, lp, rx.Now(), l);
      LoopAfterSnoc(cfg, steps, lp, rx.Now(), l);
      StepCorresponds(cfg, lp, rx.Now(), l);
      lp, steps := LoopNext(cfg, lp, rx.Now(), l), steps + [(rx.Now(), l)];
    }

    /** The loop is between events and `actor` is the value it carries. */
    ghost predicate Waits(actor: A)
      reads this, rx, stop, stop.running, stop.shot
    {
      Valid() && lp.phase.Idle? && lp.rx && lp.ctx && actor == lp.actor
    }

    /** The future is being dropped because of `exit`, whatever its locals hold. */
    ghost predicate Leaves(exit: Exit)
      reads this, rx, stop, stop.running, stop.shot
    {
      Valid() && lp.phase.Unwinding? && lp.rx && lp.ctx && lp.exit == exit
    }

    /** Everything the loop held is gone and its end is published, once. */
    ghost predicate Over()
      reads this, rx, stop, stop.running, stop.shot
    {
      && Valid() && lp.phase.Ended?
      && !stop.running.up && stop.shot.values == 1 && rx.closed && !ctx
    }

    static lemma Resources(cfg: Config<A>, lp: Loop<A, R>)
      requires LoopInv(cfg, lp)
      ensures ExitInv(cfg, lp)
      ensures lp.phase.Spawned? ==> lp.actor == cfg.init && lp.turns == []
      ensures lp.phase.Idle? ==> lp.actor == Replay(cfg, lp.turns)
      ensures lp.phase.Ended? && Normal(lp.exit) ==> lp.actor == cfg.hooks.stopped(Replay(cfg, lp.turns))
    {
    }

    /** The `started` of a new actor (src/event_loop.rs:114). */
    method Start(actor: A, end: HookEnd) returns (started: A)
      requires Valid() && lp.phase.Spawned? && actor == cfg.init
      modifies this`lp, this`steps
      ensures lp.turns == []
      ensures match end
              case Fine => Waits(started) && started == cfg.hooks.started(actor) && lp.streamOpen == old(lp.streamOpen)
              case Fails => Leaves(StartFailed)
              case Panics => Leaves(Panicked)
    {
      hide LoopInv, LoopAfter, Corresponds, Conserved, TakePayload, RunMicro, RunTimeout, RefreshDown, RefreshUp, EndTurn;
      Resources(cfg, lp);
      started := actor;
      Mirror(Boot);
      if end.Panics? {
        Mirror(Panic);
      } else if end.Fails? {
        Mirror(BootDone(false));
      } else {
        started := cfg.hooks.started(actor);
        Mirror(BootDone(true));
      }
    }

    /** Take the next event, if there is one (`rx.next()`). */
    method Next(actor: A, w: Wake<A, R>)
      returns (ready: bool, event: Option<Payload<A, R>>, ghost saw: Saw<A, R>)
      requires Waits(actor)
      modifies this`lp, this`steps, rx
      ensures saw == if !ready then Slept else if event.None? then Closed else Took(event.value)
      ensures Sees(old(rx.Now()), w, saw) && rx.Now() == Left(old(rx.Now()), w, saw, |old(lp.turns)|)
      ensures !ready ==> Waits(actor) && lp == old(lp)
      ensures ready && event.None? ==>
                && Valid() && lp.phase.Closing? && lp.exit.ByChannelEnd? && lp.actor == actor && lp.turns == old(lp.turns)
      ensures ready && event.Some? ==>
                && Valid() && rx.fates != []
                && lp == TakePayload(cfg, old(lp), event.value, |rx.fates| - 1)
                && |rx.fates| <= |rx.accepted| && rx.accepted[|rx.fates| - 1] == event.value
    {
      hide LoopInv, LoopAfter, Corresponds, Conserved, TakePayload, Acted;
      ghost var before := rx.Now();
      Interfere(rx, w.acts);
      CorrespondsInterfered(lp.turns, before, rx.Now());
      event, saw := None, Slept;
      if rx.queue != [] {
        ready := true;
        ghost var was, led := lp, rx.Now();
        LoopInvStep(cfg, was, led, Recv);
        LoopAfterSnoc(cfg, steps, was, led, Recv);
        RecvCorresponds(cfg, was, led);
        DequeueConserves(led, |was.turns|);
        RecvKeeps(cfg, was, led);
        event := rx.Recv(|lp.turns|);
        lp, steps := LoopNext(cfg, was, led, Recv), steps + [(led, Recv)];
        saw := Took(event.value);
      } else if rx.closed {
        ready, saw := true, Closed;
        Mirror(ChannelEnd);
      } else {
        ready := false;
      }
    }

    static lemma RecvKeeps(cfg: Config<A>, lp: Loop<A, R>, led: Ledger<Payload<A, R>>)
      requires LoopEnabled(cfg, lp, led.box, Recv)
      ensures var np := TakePayload(cfg, lp, led.box.queue[0], |led.fates|);
              && LoopNext(cfg, lp, led, Recv) == np
              && np.flag == lp.flag && np.shots == lp.shots && np.ctx == lp.ctx && np.rx == lp.rx
    {
      hide TakePayload;
      TakenForm(cfg, lp, led.box.queue[0], |led.fates|);
      hide TakenTurn, TurnHooks, PhaseTaken;
    }

    /** `was` with its handler `k` micro-steps in, at `a`. */
    static ghost function Ran(was: Loop<A, R>, k: nat, a: A): Loop<A, R>
      requires was.turns != []
    {
      SetLast(was, Last(was).(ran := k)).(actor := a)
    }

    static lemma RanZero(was: Loop<A, R>)
      requires was.turns != []
      ensures Ran(was, Last(was).ran, was.actor) == was
    {
      assert was.turns[|was.turns| - 1 := Last(was)] == was.turns;
    }

    static lemma RanKeeps(was: Loop<A, R>, k: nat, a: A)
      requires was.turns != []
      ensures var lp := Ran(was, k, a);
              lp.flag == was.flag && lp.shots == was.shots && lp.rx == was.rx && lp.ctx == was.ctx
    {
    }

    static lemma MicroRan(cfg: Config<A>, was: Loop<A, R>, k: nat, a: A, led: Ledger<Payload<A, R>>)
      requires Working(was) && Last(was).work.Run? && k < |Last(was).work.script.steps|
      ensures LoopEnabled(cfg, Ran(was, k, a), led.box, Micro)
      ensures LoopNext(cfg, Ran(was, k, a), led, Micro) == Ran(was, k + 1, Last(was).work.script.steps[k](a))
    {
      var lp, np := Ran(was, k, a), Ran(was, k + 1, Last(was).work.script.steps[k](a));
      assert Last(lp) == Last(was).(ran := k);
      assert SetLast(lp, Last(lp).(ran := k + 1)).turns == np.turns;
    }

    /** How a handler that ran `k` micro-steps ends. */
    static lemma EndRan(cfg: Config<A>, was: Loop<A, R>, k: nat, a: A, led: Ledger<Payload<A, R>>, l: Label<A, R>)
      requires Working(was) && Last(was).work.Run? && k <= |Last(was).work.script.steps|
      requires l.Panic? || (l.Timeout? && cfg.timeout) || (l.Complete? && k == |Last(was).work.script.steps|)
      ensures LoopEnabled(cfg, Ran(was, k, a), led.box, l)
      ensures |LoopNext(cfg, Ran(was, k, a), led, l).turns| == |was.turns|
      ensures var np := LoopNext(cfg, Ran(was, k, a), led, l);
              var t := Last(was).(ran := k, outcome := if l.Panic? then Broken else if l.Timeout? then Cut
                                                       else Completed(Some(Last(was).work.script.answer(a))));
              && np.turns == SetLast(was, t).turns && np.actor == a
              && np.phase == (if l.Panic? then Unwinding else if l.Timeout? && cfg.failOnTimeout then Cancelling else Idle)
              && np.exit == (if l.Panic? then Panicked else if l.Timeout? && cfg.failOnTimeout then TimedOut else was.exit)
              && np.flag == was.flag && np.shots == was.shots && np.rx == was.rx && np.ctx == was.ctx
              && np.streamOpen == was.streamOpen
    {
      assert Last(Ran(was, k, a)) == Last(was).(ran := k);
    }

    /** Poll a handler through its first `limit` micro-steps. */
    method RunHandler(script: Script<A, R>, limit: nat, actor: A) returns (after: A)
      requires Mirrored() && Working(lp) && lp.actor == actor && limit <= |script.steps|
      requires Last(lp).work == Run(script) && Last(lp).ran == 0
      modifies this`lp, this`steps
      ensures Mirrored() && lp == Ran(old(lp), limit, after) && after == RunSteps(script.steps[..limit], actor)
    {
      hide LoopInv, LoopAfter, Corresponds, Conserved, LoopNext, LoopEnabled, Ran;
      RanZero(lp);
      assert script.steps[..0] == [];
      after := actor;
      ghost var was := lp;
      var k := 0;
      while k < limit
        invariant 0 <= k <= limit && Mirrored() && lp == Ran(was, k, after)
        invariant after == RunSteps(script.steps[..k], actor)
      {
        MicroRan(cfg, was, k, after, rx.Now());
        Mirror(Micro);
        RunStepsSnoc(script.steps, k, actor);
        after := script.steps[k](after);
        k := k + 1;
      }
    }

    /** The handler against the timer (src/event_loop.rs:96-108). */
    method TimeoutFut(script: Script<A, R>, course: Course, actor: A) returns (after: A, raced: Raced<R>)
      requires Valid() && Working(lp) && lp.actor == actor
      requires Last(lp).work == Run(script) && Last(lp).ran == 0
      modifies this`lp, this`steps
      ensures |lp.turns| == old(|lp.turns|) && lp.streamOpen == old(lp.streamOpen)
      ensures raced.Panicking? <==> course.PanicAfter?
      ensures raced.Elapsed? <==> course.TimerAfter? && cfg.timeout
      ensures raced.InTime? ==>
                && Waits(after) && after == RunSteps(script.steps, actor) && raced.answer == script.answer(after)
                && lp.turns == SetLast(old(lp), Last(old(lp)).(ran := |script.steps|,
                                                               outcome := Completed(Some(raced.answer)))).turns
      ensures raced.Elapsed? ==>
                && Valid() && after == lp.actor == RunSteps(script.steps[..Min(course.steps, |script.steps|)], actor)
                && lp.turns == SetLast(old(lp), Last(old(lp)).(ran := Min(course.steps, |script.steps|),
                                                               outcome := Cut)).turns
                && if cfg.failOnTimeout then lp.phase.Cancelling? else lp.phase.Idle?
      ensures raced.Panicking? ==>
                && Leaves(Panicked)
                && lp.turns == SetLast(old(lp), Last(old(lp)).(ran := Min(course.steps, |script.steps|),
                                                               outcome := Broken)).turns
    {
      hide LoopInv, LoopAfter, Corresponds, Conserved, LoopNext, LoopEnabled, Ran, RunSteps, SetLast;
      Resources(cfg, lp);
      assert script.steps[..|script.steps|] == script.steps;
      var limit := |script.steps|;
      if course.PanicAfter? || (course.TimerAfter? && cfg.timeout) {
        limit := Min(course.steps, limit);
      }
      ghost var was := lp;
      after := RunHandler(script, limit, actor);
      RanKeeps(was, limit, after);
      if course.PanicAfter? {
        raced := Panicking;
        EndHandler(was, limit, after, Panic);
      } else if course.TimerAfter? && cfg.timeout {
        raced := Elapsed;
        EndHandler(was, limit, after, Timeout);
      } else {
        raced := InTime(script.answer(after));
        EndHandler(was, limit, after, Complete);
      }
    }

    /** The end of a handler that ran `k` micro-steps. */
    ghost method EndHandler(was: Loop<A, R>, k: nat, a: A, l: Label<A, R>)
      requires Valid() && Working(was) && Last(was).work.Run? && k <= |Last(was).work.script.steps|
      requires lp == Ran(was, k, a)
      requires l.Panic? || (l.Timeout? && cfg.timeout) || (l.Complete? && k == |Last(was).work.script.steps|)
      modifies this`lp, this`steps
      ensures Valid() && |lp.turns| == |was.turns| && lp.actor == a
      ensures var t := Last(was).(ran := k, outcome := if l.Panic? then Broken else if l.Timeout? then Cut
                                                       else Completed(Some(Last(was).work.script.answer(a))));
              lp.turns == SetLast(was, t).turns
      ensures lp.phase == (if l.Panic? then Unwinding else if l.Timeout? && cfg.failOnTimeout then Cancelling else Idle)
      ensures lp.exit == (if l.Panic? then Panicked else if l.Timeout? && cfg.failOnTimeout then TimedOut else was.exit)
      ensures lp.rx == was.rx && lp.ctx == was.ctx && lp.streamOpen == was.streamOpen
    {
      hide LoopInv, LoopAfter, Corresponds, Conserved, LoopNext, LoopEnabled, Ran, SetLast;
      RanKeeps(was, k, a);
      EndRan(cfg, was, k, a, rx.Now(), l);
      Mirror(l);
    }

    /** `R::refresh` of the three restart strategies (src/actor/restart_strategy.rs:11-43). */
    method Refresh(actor: A, down: HookEnd, up: HookEnd) returns (after: A, end: HookEnd)
      requires Valid() && lp.actor == actor && lp.turns != [] && Last(lp).work.Refresh?
      requires if cfg.strategy.NonRestartable? then lp.phase.Idle? else lp.phase.Busy? && Last(lp).ran == 0
      modifies this`lp, this`steps
      ensures match end
              case Fine => Waits(after)
              case Fails => Leaves(RestartFailed)
              case Panics => Leaves(Panicked)
      ensures end == if cfg.strategy.NonRestartable? then Fine else if down.Panics? then Panics else up
      ensures end.Fine? ==>
                (match cfg.strategy
                 case NonRestartable => after == actor
                 case RestartOnly => after == cfg.hooks.started(cfg.hooks.stopped(actor))
                 case RecreateFromDefault => after == cfg.hooks.started(cfg.hooks.blank))
      ensures if cfg.strategy.NonRestartable? then lp == old(lp) else
                lp.turns == SetLast(old(lp), if down.Panics? then Last(old(lp)).(outcome := Broken)
                                             else if up.Fine? then Last(old(lp)).(ran := 2, outcome := Completed(None))
                                             else Last(old(lp)).(ran := 1, outcome := Broken)).turns
    {
      hide Valid, LoopInv, LoopAfter, Corresponds, Conserved, SetLast;
      HeldResources();
      ghost var was := lp;
      after, end := actor, Fine;
      match cfg.strategy {
        case NonRestartable =>
        case _ =>
          StopAgain(down);
          if down.Panics? {
            return after, Panics;
          }
          after := cfg.hooks.stopped(after);
          if cfg.strategy.RecreateFromDefault? {
            after := cfg.hooks.blank;
          }
          StartAgain(after, up);
          SetTwice(was, if up.Fine? then was.turns[|was.turns| - 1].(ran := 2, outcome := Completed(None))
                        else was.turns[|was.turns| - 1].(ran := 1, outcome := Broken));
          end := up;
          if up.Fine? {
            after := cfg.hooks.started(after);
          }
      }
    }

    static lemma SetTwice(was: Loop<A, R>, t: Turn<A, R>)
      requires was.turns != []
      ensures forall np: Loop<A, R>, u: Turn<A, R> ::
                np.turns == SetLast(was, u).turns ==> Last(np) == u && SetLast(np, t).turns == SetLast(was, t).turns
    {
    }

    /** The `stopped` of a restart. */
    ghost method StopAgain(down: HookEnd)
      requires Valid() && Working(lp) && Last(lp).work.Refresh? && Last(lp).ran == 0 && !cfg.strategy.NonRestartable?
      modifies this`lp, this`steps
      ensures lp.turns == SetLast(old(lp), if down.Panics? then Last(old(lp)).(outcome := Broken)
                                           else Last(old(lp)).(ran := 1)).turns
      ensures down.Panics? ==> Leaves(Panicked)
      ensures !down.Panics? ==>
                && Valid() && Working(lp) && Last(lp).work.Refresh? && Last(lp).ran == 1
                && lp.actor == if cfg.strategy.RecreateFromDefault? then cfg.hooks.blank else cfg.hooks.stopped(old(lp.actor))
    {
      hide LoopInv, LoopAfter, Corresponds, Conserved, LoopNext, LoopEnabled;
      Resources(cfg, lp);
      var l := if down.Panics? then Label<A, R>.Panic else RestartStopped;
      RefreshOpen(cfg, lp, rx.Now(), l);
      RevisionForm(cfg, lp, rx.Now(), l);
      Mirror(l);
    }

    /** The steps of a restart are enabled when their turn comes. */
    static lemma RefreshOpen(cfg: Config<A>, lp: Loop<A, R>, led: Ledger<Payload<A, R>>, l: Label<A, R>)
      requires Working(lp) && Last(lp).work.Refresh?
      requires l.Panic? || (l.RestartStopped? && Last(lp).ran == 0) || (l.RestartStarted? && Last(lp).ran == 1)
      ensures LoopLabel(l) && LoopEnabled(cfg, lp, led.box, l)
    {
    }

    lemma HeldResources()
      requires Valid()
      ensures ExitInv(cfg, lp)
      ensures lp.phase.Idle? ==> lp.actor == Replay(cfg, lp.turns)
    {
      Resources(cfg, lp);
    }

    /** The `started` of a restart. */
    ghost method StartAgain(actor: A, up: HookEnd)
      requires Valid() && Working(lp) && Last(lp).work.Refresh? && Last(lp).ran == 1 && lp.actor == actor
      modifies this`lp, this`steps
      ensures lp.turns == SetLast(old(lp), if up.Fine? then Last(old(lp)).(ran := 2, outcome := Completed(None))
                                           else Last(old(lp)).(outcome := Broken)).turns
      ensures match up
              case Fine => Waits(cfg.hooks.started(actor))
              case Fails => Leaves(RestartFailed)
              case Panics => Leaves(Panicked)
    {
      hide LoopInv, LoopAfter, Corresponds, Conserved, LoopNext, LoopEnabled;
      Resources(cfg, lp);
      var l := if up.Panics? then Label<A, R>.Panic else RestartStarted(up.Fine?);
      RefreshOpen(cfg, lp, rx.Now(), l);
      RevisionForm(cfg, lp, rx.Now(), l);
      Mirror(l);
    }

    /** The flag store and the one-shot send. */
    ghost method Publish()
      requires Mirrored() && (lp.phase.Notifying? || lp.phase.Unwinding?) && lp.notifier.Armed?
      modifies this`lp, this`steps
      ensures Mirrored()
      ensures lp == old(lp).(flag := false, notifier := Gone, shots := old(lp.shots) + 1, phase := Unwinding)
    {
      hide LoopInv, LoopAfter, Corresponds, Conserved;
      Mirror(Lower);
      Mirror(Fire);
    }

    ghost method Release()
      requires Mirrored() && lp.phase.Unwinding? && lp.notifier.Gone? && lp.rx && lp.ctx
      modifies this`lp, this`steps
      ensures Mirrored()
      ensures lp == old(lp).(rx := false, ctx := false, phase := Ended)
    {
      hide LoopInv, LoopAfter, Corresponds, Conserved;
      Mirror(DropRx);
      Mirror(DropCtx);
      Mirror(Label.Exit);
    }

    /** Dropping the future: receiver, context and notifier go, in whatever way the loop ended. */
    method Unwind()
      requires Valid() && lp.phase.Unwinding? && lp.rx && lp.ctx
      modifies this`lp, this`steps, this`ctx, rx, stop, stop.running, stop.shot
      ensures Over() && lp.exit == old(lp.exit) && lp.turns == old(lp.turns) && lp.actor == old(lp.actor)
      ensures rx.Now() == CloseReceiver(old(rx.Now()))
    {
      hide LoopInv, LoopAfter, Corresponds, Conserved;
      Resources(cfg, lp);
      if stop.sender.Some? {
        Publish();
      }
      Release();
      rx.DropReceiver();
      ctx := false;
      stop.Drop();
    }

    /** `cancelled`, after which the loop returns the timeout error. */
    method Cancel(actor: A, end: HookEnd) returns (after: A)
      requires Valid() && lp.phase.Cancelling? && lp.actor == actor
      modifies this`lp, this`steps
      ensures Leaves(if end.Panics? then Panicked else TimedOut) && lp.turns == old(lp.turns)
      ensures !end.Panics? ==> after == lp.actor == cfg.hooks.cancelled(actor)
    {
      hide LoopInv, LoopAfter, Corresponds, Conserved;
      Resources(cfg, lp);
      after := actor;
      if end.Panics? {
        Mirror(Panic);
      } else {
        after := cfg.hooks.cancelled(actor);
        Mirror(CancelledDone);
      }
    }

    /** `stopped` and `notify`, the normal way out. */
    method Conclude(actor: A, end: HookEnd) returns (after: A)
      requires Valid() && lp.phase.Closing? && lp.actor == actor
      modifies this`lp, this`steps, stop, stop.running, stop.shot
      ensures Leaves(if end.Panics? then Panicked else old(lp.exit)) && lp.turns == old(lp.turns)
      ensures !end.Panics? ==> after == lp.actor == cfg.hooks.stopped(actor) && !stop.running.up && stop.shot.values == 1
    {
      hide LoopInv, LoopAfter, Corresponds, Conserved;
      Resources(cfg, lp);
      after := actor;
      if end.Panics? {
        Mirror(Panic);
      } else {
        after := cfg.hooks.stopped(actor);
        Mirror(StoppedDone);
        Publish();
        stop.Notify();
      }
    }

    /** What taking a payload leaves to be done. */
    static lemma TakenPhase(cfg: Config<A>, lp: Loop<A, R>, p: Payload<A, R>, e: nat)
      requires lp.phase.Idle?
      ensures var np := TakePayload(cfg, lp, p, e);
              && np.turns == lp.turns + [Last(np)] && Last(np).work == WorkOf(p) && Last(np).ran == 0
              && np.actor == lp.actor && np.rx == lp.rx && np.ctx == lp.ctx && np.streamOpen == lp.streamOpen
              && Phased(cfg, np, p)
    {
      hide TakePayload;
      TakenForm(cfg, lp, p, e);
      hide TurnHooks;
    }

    /** What the future of a loop may resolve to, and in which state it leaves everything it shared. */
    ghost predicate Resolved(res: Finish<A>)
      reads this, rx, stop, stop.running, stop.shot
    {
      match res
      case Suspended => Valid() && lp.phase.Idle?
      case Returned(actor) => Over() && Normal(lp.exit) && actor == cfg.hooks.stopped(Replay(cfg, lp.turns))
      case Failed => Over() && (lp.exit.StartFailed? || lp.exit.RestartFailed? || lp.exit.TimedOut?)
      case Crashed => Over() && lp.exit.Panicked?
    }

    /** Leave the loop without an actor to return: with an error, or by unwinding a panic. */
    method Abort(crash: bool) returns (res: Finish<A>)
      requires Valid() && lp.phase.Unwinding? && lp.rx && lp.ctx
      requires if crash then lp.exit.Panicked? else lp.exit.StartFailed? || lp.exit.RestartFailed? || lp.exit.TimedOut?
      modifies this`lp, this`steps, this`ctx, rx, stop, stop.running, stop.shot
      ensures Resolved(res) && res == (if crash then Crashed else Failed)
      ensures lp.turns == old(lp.turns) && rx.Now() == CloseReceiver(old(rx.Now()))
    {
      hide LoopInv, LoopAfter, Corresponds, Conserved;
      Unwind();
      res := if crash then Crashed else Failed;
    }

    /** The normal way out, once the loop has broken off. */
    method Leave(actor: A, end: HookEnd) returns (res: Finish<A>)
      requires Valid() && lp.phase.Closing? && lp.actor == actor
      modifies this`lp, this`steps, this`ctx, rx, stop, stop.running, stop.shot
      ensures Resolved(res) && (if end.Panics? then res.Crashed? else res.Returned?)
      ensures lp.turns == old(lp.turns) && rx.Now() == CloseReceiver(old(rx.Now()))
    {
      hide LoopInv, LoopAfter, Corresponds, Conserved;
      Resources(cfg, lp);
      var after := Conclude(actor, end);
      Unwind();
      Resources(cfg, lp);
      res := if end.Panics? then Crashed else Returned(after);
    }

    /** The handler of one payload or stream item; None if the loop goes on with `after`. */
    method Serve(script: Script<A, R>, actor: A, w: Wake<A, R>) returns (after: A, res: Option<Finish<A>>)
      requires Valid() && Working(lp) && lp.actor == actor
      requires Last(lp).work == Run(script) && Last(lp).ran == 0
      modifies this`lp, this`steps, this`ctx, rx, stop, stop.running, stop.shot
      ensures res.None? ==> Waits(after) && lp.streamOpen == old(lp.streamOpen)
      ensures res.Some? ==> Resolved(res.value) && !res.value.Suspended?
      ensures HandlerDecides(cfg, w, if res.None? then Suspended else res.value)
      ensures |lp.turns| == old(|lp.turns|) && lp.turns[..|lp.turns| - 1] == old(lp.turns[..|lp.turns| - 1])
      ensures HandlerRan(cfg, w.course, script, actor, Last(lp))
      ensures rx.Now() == if res.None? then old(rx.Now()) else CloseReceiver(old(rx.Now()))
    {
      hide Mirrored, Held, RunSteps, Waits, Leaves, Resolved;
      var raced;
      after, raced := TimeoutFut(script, w.course, actor);
      after, res := Settle(after, raced, w);
    }

    /** After the race: an unwinding panic and a failing timeout end the loop. */
    method Settle(actor: A, raced: Raced<R>, w: Wake<A, R>) returns (after: A, res: Option<Finish<A>>)
      requires match raced
               case InTime(_) => Waits(actor)
               case Panicking => Leaves(Panicked)
               case Elapsed => Valid() && lp.actor == actor && if cfg.failOnTimeout then lp.phase.Cancelling? else lp.phase.Idle?
      modifies this`lp, this`steps, this`ctx, rx, stop, stop.running, stop.shot
      ensures res.None? ==> Waits(after) && lp.streamOpen == old(lp.streamOpen)
      ensures res.Some? ==> Resolved(res.value)
      ensures lp.turns == old(lp.turns) && rx.Now() == if res.None? then old(rx.Now()) else CloseReceiver(old(rx.Now()))
      ensures match raced
              case InTime(_) => res.None?
              case Panicking => res == Some(Crashed)
              case Elapsed =>
                if !cfg.failOnTimeout then res.None? else res == Some(if w.down.Panics? then Crashed else Failed)
    {
      hide Mirrored, Held;
      after, res := actor, None;
      if raced.Panicking? {
        var r := Abort(true);
        res := Some(r);
      } else if raced.Elapsed? && cfg.failOnTimeout {
        after := Cancel(after, w.down);
        var r := Abort(w.down.Panics?);
        res := Some(r);
      } else {
        HeldResources();
      }
    }

    /** The turn of the next stream item begins. */
    ghost method TakeItem(script: Script<A, R>)
      requires Waits(lp.actor) && cfg.onStream && lp.streamOpen
      modifies this`lp, this`steps
      ensures Valid() && Working(lp) && lp.actor == old(lp.actor) && lp.streamOpen
      ensures lp.turns == old(lp.turns) + [Turn(Stream(old(lp.items)), Run(script), 0, Pending)]
      ensures Last(lp).work == Run(script) && Last(lp).ran == 0
    {
      hide LoopInv, LoopAfter, Corresponds, Conserved;
      Mirror(StreamItem(script));
    }

    /** `finished`, once the stream has ended. */
    method StreamFinished(actor: A, end: HookEnd) returns (after: A)
      requires Waits(actor) && cfg.onStream && lp.streamOpen
      modifies this`lp, this`steps
      ensures |lp.turns| == old(|lp.turns|) + 1 && lp.turns[..|lp.turns| - 1] == old(lp.turns)
      ensures Last(lp).work.Conclude?
      ensures if end.Panics? then Leaves(Panicked) && Last(lp).ran == 0 && Last(lp).outcome == Broken else
                && Waits(after) && !lp.streamOpen && after == cfg.hooks.finished(actor)
                && Last(lp).ran == 1 && Last(lp).outcome == Completed(None)
    {
      hide LoopInv, LoopAfter, Corresponds, Conserved;
      after := actor;
      Mirror(StreamEnd);
      if end.Panics? {
        Mirror(Panic);
      } else {
        after := cfg.hooks.finished(actor);
        Mirror(FinishedDone);
      }
    }

    /** Between wake-ups: `saws` is what the loop saw so far. */
    ghost predicate Going(actor: A, first: Ledger<Payload<A, R>>, env: seq<Wake<A, R>>, saws: seq<Saw<A, R>>)
      reads this, rx, stop, stop.running, stop.shot
    {
      && Waits(actor) && |saws| <= |env| && Played(cfg, first, env, saws, lp.turns) && GoesOn(cfg, env, saws, |saws|)
      && rx.Now() == MailboxAfter(first, env, saws)
    }

    /** After the last wake-up. */
    ghost predicate Done(res: Finish<A>, first: Ledger<Payload<A, R>>, env: seq<Wake<A, R>>, saws: seq<Saw<A, R>>)
      reads this, rx, stop, stop.running, stop.shot
    {
      && Resolved(res) && !res.Suspended? && Played(cfg, first, env, saws, lp.turns) && Decided(cfg, env, saws, res)
      && rx.Now() == CloseReceiver(MailboxAfter(first, env, saws))
    }

    /** The loop saw `saw` and began the turn for it. */
    ghost predicate Begun(
      actor: A, first: Ledger<Payload<A, R>>, env: seq<Wake<A, R>>, saws: seq<Saw<A, R>>, saw: Saw<A, R>)
      reads this, rx, stop, stop.running, stop.shot
    {
      && Valid() && lp.turns != [] && lp.actor == actor == Replay(cfg, lp.turns[..|lp.turns| - 1])
      && |saws| < |env| && Played(cfg, first, env, saws, lp.turns[..|lp.turns| - 1]) && GoesOn(cfg, env, saws, |saws|)
      && Sees(MailboxAfter(first, env, saws), env[|saws|], saw)
      && AtArm(env[|saws|], saw, StreamOpen(cfg.onStream, saws))
      && rx.Now() == Left(MailboxAfter(first, env, saws), env[|saws|], saw, |lp.turns| - 1)
    }

    /** One wake-up at the mailbox, up to where the turn of a payload begins. */
    method NextWake(
      actor: A, env: seq<Wake<A, R>>, i: nat, ghost first: Ledger<Payload<A, R>>, ghost saws: seq<Saw<A, R>>)
      returns (ready: bool, event: Option<Payload<A, R>>, ghost saw: Saw<A, R>)
      requires Going(actor, first, env, saws) && i == |saws| < |env|
      requires cfg.onStream && StreamOpen(true, saws) ==> env[i].arm.FromMailbox?
      modifies this`lp, this`steps, rx
      ensures saw == if !ready then Slept else if event.None? then Closed else Took(event.value)
      ensures !ready ==> Going(actor, first, env, saws + [saw]) && lp == old(lp)
      ensures ready && event.None? ==>
                && Valid() && lp.phase.Closing? && lp.exit.ByChannelEnd? && lp.actor == actor
                && Played(cfg, first, env, saws + [saw], lp.turns) && rx.Now() == MailboxAfter(first, env, saws + [saw])
      ensures ready && event.Some? ==>
                && Begun(actor, first, env, saws, saw) && lp.rx && lp.ctx
                && Last(lp).work == WorkOf(event.value) && Last(lp).ran == 0 && lp.streamOpen == old(lp.streamOpen)
                && Phased(cfg, lp, event.value)
    {
      hide Mirrored, Held, TakePayload, Played, Sees, Left, MailboxAfter, GoesOn, Replay, StreamOpen, Phased;
      ghost var was := lp;
      HeldResources();
      NoStream(saws);
      ready, event, saw := Next(actor, env[i]);
      if !ready || event.None? {
        PlayedNext(cfg, first, env, saws, was.turns, saw, lp.turns);
        if !ready {
          DecidedOn(cfg, env, saws, saw);
        }
      } else {
        TakenPhase(cfg, was, event.value, |rx.fates| - 1);
        assert lp.turns[..|lp.turns| - 1] == was.turns;
      }
    }

    /** Where the loop is with a payload it took. */
    static ghost predicate Phased(cfg: Config<A>, lp: Loop<A, R>, p: Payload<A, R>) {
      && lp.turns != []
      && match p
         case Stop => lp.phase.Closing? && lp.exit.ByStop? && Last(lp).outcome == Completed(None)
         case Task(_, _) => lp.phase.Busy?
         case Restart =>
           if cfg.onStream then lp.phase.Unwinding? && lp.exit.Panicked? && Last(lp).outcome == Broken
           else if cfg.strategy.NonRestartable? then lp.phase.Idle? && Last(lp).outcome == Completed(None)
           else lp.phase.Busy?
    }

    /** The turn of a payload that ends the loop at once: a Stop, or a Restart in a stream loop. */
    lemma BegunEnds(
      actor: A, first: Ledger<Payload<A, R>>, env: seq<Wake<A, R>>, saws: seq<Saw<A, R>>, p: Payload<A, R>)
      requires Begun(actor, first, env, saws, Took(p)) && Phased(cfg, lp, p) && (p.Stop? || (p.Restart? && cfg.onStream))
      requires Last(lp).work == WorkOf(p) && Last(lp).ran == 0
      ensures Played(cfg, first, env, saws + [Took(p)], lp.turns) && rx.Now() == MailboxAfter(first, env, saws + [Took(p)])
    {
      hide Mirrored, Held, Played, Sees, Left, MailboxAfter, GoesOn, Replay, StreamOpen, AtArm;
      PlayedNext(cfg, first, env, saws, lp.turns[..|lp.turns| - 1], Took(p), lp.turns);
    }

    /** The handler of one wake-up. */
    method ServeWake(
      script: Script<A, R>, actor: A, env: seq<Wake<A, R>>, i: nat, ghost first: Ledger<Payload<A, R>>,
      ghost saws: seq<Saw<A, R>>, ghost saw: Saw<A, R>)
      returns (after: A, res: Option<Finish<A>>)
      requires Begun(actor, first, env, saws, saw) && i == |saws|
      requires Working(lp) && Last(lp).work == Run(script) && Last(lp).ran == 0
      requires saw == Item(script) || (saw.Took? && saw.payload.Task? && saw.payload.script == script)
      modifies this`lp, this`steps, this`ctx, rx, stop, stop.running, stop.shot
      ensures res.None? ==> Going(after, first, env, saws + [saw]) && lp.streamOpen == old(lp.streamOpen)
      ensures res.Some? ==> Done(res.value, first, env, saws + [saw])
    {
      hide Mirrored, Held, Played, Sees, Left, MailboxAfter, GoesOn, Decided, Replay, AtArm, StreamOpen, RunSteps,
           HandlerRan, HandlerDecides;
      ghost var before := lp.turns[..|lp.turns| - 1];
      after, res := Serve(script, actor, env[i]);
      HandlerDid(cfg, env[i], saw, script, actor, Last(lp), if res.None? then Suspended else res.value);
      PlayedNext(cfg, first, env, saws, before, saw, lp.turns);
      if res.None? {
        DecidedOn(cfg, env, saws, saw);
      } else {
        DecidedNow(cfg, env, saws, saw, res.value);
      }
    }

    /** The stream's arm of the `select!`. */
    method StreamArm(
      actor: A, env: seq<Wake<A, R>>, i: nat, ghost first: Ledger<Payload<A, R>>, ghost saws: seq<Saw<A, R>>)
      returns (after: A, res: Option<Finish<A>>, ghost saw: Saw<A, R>)
      requires Going(actor, first, env, saws) && i == |saws| < |env| && cfg.onStream
      requires !env[i].arm.FromMailbox? && lp.streamOpen && StreamOpen(true, saws)
      modifies this`lp, this`steps, this`ctx, rx, stop, stop.running, stop.shot
      ensures saw.StreamEnded? <==> env[i].arm.StreamOver?
      ensures res.None? ==> Going(after, first, env, saws + [saw]) && lp.streamOpen == !saw.StreamEnded?
      ensures res.Some? ==> Done(res.value, first, env, saws + [saw])
    {
      hide Mirrored, Held, Played, Sees, Left, MailboxAfter, GoesOn, Decided, Replay, StreamOpen, RunSteps;
      var w := env[i];
      ghost var before := lp.turns;
      HeldResources();
      res := None;
      if w.arm.StreamOver? {
        saw := StreamEnded;
        SeesStream(rx.Now(), w, saw, |lp.turns|);
        after := StreamFinished(actor, w.down);
        PlayedNext(cfg, first, env, saws, before, saw, lp.turns);
        if w.down.Panics? {
          var r := Abort(true);
          DecidedNow(cfg, env, saws, saw, r);
          res := Some(r);
        } else {
          DecidedOn(cfg, env, saws, saw);
        }
      } else {
        saw := Item(w.arm.script);
        SeesStream(rx.Now(), w, saw, |lp.turns|);
        TakeItem(w.arm.script);
        assert lp.turns[..|lp.turns| - 1] == before;
        after, res := ServeWake(w.arm.script, actor, env, i, first, saws, saw);
      }
    }

    /** The restart of one wake-up. */
    method RefreshWake(
      actor: A, env: seq<Wake<A, R>>, i: nat, ghost first: Ledger<Payload<A, R>>, ghost saws: seq<Saw<A, R>>)
      returns (after: A, res: Option<Finish<A>>)
      requires Begun(actor, first, env, saws, Took(Payload<A, R>.Restart)) && i == |saws| && !cfg.onStream
      requires Last(lp).work.Refresh? && Last(lp).ran == 0
      requires if cfg.strategy.NonRestartable? then lp.phase.Idle? && Last(lp).outcome == Completed(None) else lp.phase.Busy?
      modifies this`lp, this`steps, this`ctx, rx, stop, stop.running, stop.shot
      ensures res.None? ==> Going(after, first, env, saws + [Took(Payload<A, R>.Restart)])
      ensures res.Some? ==> Done(res.value, first, env, saws + [Took(Payload<A, R>.Restart)])
    {
      hide Mirrored, Held, Played, Sees, Left, MailboxAfter, GoesOn, Decided, Replay, AtArm, StreamOpen;
      ghost var before, saw := lp.turns[..|lp.turns| - 1], Took(Payload<A, R>.Restart);
      var end;
      after, end := Refresh(actor, env[i].down, env[i].up);
      PlayedNext(cfg, first, env, saws, before, saw, lp.turns);
      if end.Fine? {
        res := None;
        DecidedOn(cfg, env, saws, saw);
      } else {
        var r := Abort(end.Panics?);
        DecidedNow(cfg, env, saws, saw, r);
        res := Some(r);
      }
    }

    /**
     * The loop of an ordinary actor (src/event_loop.rs:111-151).  `saws` is what it saw, wake-up by wake-up:
     * that and `env` decide every turn and the result.
     */
    method Create(init: A, boot: HookEnd, env: seq<Wake<A, R>>) returns (res: Finish<A>, ghost saws: seq<Saw<A, R>>)
      requires Valid() && lp.phase.Spawned? && init == cfg.init && !cfg.onStream
      modifies this, rx, stop, stop.running, stop.shot
      ensures Resolved(res)
      ensures !boot.Fine? ==> res == (if boot.Panics? then Crashed else Failed) && lp.turns == [] && saws == []
      ensures boot.Fine? ==> Played(cfg, old(rx.Now()), env, saws, lp.turns) && Decided(cfg, env, saws, res)
      ensures boot.Fine? ==>
                rx.Now() == if res.Suspended? then MailboxAfter(old(rx.Now()), env, saws)
                            else CloseReceiver(MailboxAfter(old(rx.Now()), env, saws))
    {
      hide Mirrored, Held, Played, Sees, Left, MailboxAfter, GoesOn, Decided, Replay, AtArm;
      saws := [];
      var actor := Start(init, boot);
      if !boot.Fine? {
        res := Abort(boot.Panics?);
        return;
      }
      ghost var first := rx.Now();
      NothingPlayed<A, R>(cfg, first, env);
      var i, closing, last := 0, false, Fine;
      ghost var saw: Saw<A, R> := Slept;
      while i < |env|
        invariant 0 <= i <= |env| && !closing && |saws| == i && Going(actor, first, env, saws)
      {
        var w := env[i];
        var ready, event;
        ready, event, saw := NextWake(actor, env, i, first, saws);
        if !ready {
          i, saws := i + 1, saws + [saw];
          continue;
        }
        last := w.down;
        if event.None? {
          closing := true;
          break;
        }
        var out := None;
        match event.value {
          case Restart =>
            actor, out := RefreshWake(actor, env, i, first, saws);
          case Task(script, _) =>
            actor, out := ServeWake(script, actor, env, i, first, saws, saw);
          case Stop =>
            BegunEnds(actor, first, env, saws, event.value);
            closing := true;
            break;
        }
        i, saws := i + 1, saws + [saw];
        if out.Some? {
          return out.value, saws;
        }
      }
      if closing {
        res := Leave(actor, last);
        DecidedNow(cfg, env, saws, saw, res);
        saws := saws + [saw];
      } else {
        res := Suspended;
        DecidedWaits(cfg, env, saws);
      }
    }

    /**
     * The loop of a stream-handling actor, whose `select!` serves either source (src/event_loop.rs:153-221).
     * Again `env`, and the arms it takes, decide every turn and the result.
     */
    method CreateOnStream(init: A, boot: HookEnd, env: seq<Wake<A, R>>)
      returns (res: Finish<A>, ghost saws: seq<Saw<A, R>>)
      requires Valid() && lp.phase.Spawned? && init == cfg.init && cfg.onStream && lp.streamOpen
      modifies this, rx, stop, stop.running, stop.shot
      ensures Resolved(res)
      ensures !boot.Fine? ==> res == (if boot.Panics? then Crashed else Failed) && lp.turns == [] && saws == []
      ensures boot.Fine? ==> Played(cfg, old(rx.Now()), env, saws, lp.turns) && Decided(cfg, env, saws, res)
      ensures boot.Fine? ==>
                rx.Now() == if res.Suspended? then MailboxAfter(old(rx.Now()), env, saws)
                            else CloseReceiver(MailboxAfter(old(rx.Now()), env, saws))
    {
      hide Mirrored, Held, Played, Sees, Left, MailboxAfter, GoesOn, Decided, Replay, StreamOpen, AtArm;
      saws := [];
      var actor := Start(init, boot);
      if !boot.Fine? {
        res := Abort(boot.Panics?);
        return;
      }
      ghost var first := rx.Now();
      NothingPlayed<A, R>(cfg, first, env);
      OpenStream<A, R>([], Slept);
      var i, closing, last, open, out := 0, false, Fine, true, None;
      ghost var saw: Saw<A, R> := Slept;
      while i < |env|
        invariant 0 <= i <= |env| && !closing && |saws| == i && Going(actor, first, env, saws)
        invariant open == lp.streamOpen == StreamOpen(true, saws)
      {
        var w := env[i];
        if open && !w.arm.FromMailbox? {
          actor, out, saw := StreamArm(actor, env, i, first, saws);
          OpenStream(saws, saw);
          i, saws := i + 1, saws + [saw];
          if out.Some? {
            return out.value, saws;
          }
          open := open && !w.arm.StreamOver?;
          continue;
        }
        var ready, event;
        ready, event, saw := NextWake(actor, env, i, first, saws);
        OpenStream(saws, saw);
        if !ready {
          i, saws := i + 1, saws + [saw];
          continue;
        }
        last := w.down;
        if event.None? {
          closing := true;
          break;
        }
        match event.value {
          case Task(script, _) =>
            actor, out := ServeWake(script, actor, env, i, first, saws, saw);
            i, saws := i + 1, saws + [saw];
            if out.Some? {
              return out.value, saws;
            }
          case Stop =>
            BegunEnds(actor, first, env, saws, event.value);
            closing := true;
            break;
          case Restart =>
            BegunEnds(actor, first, env, saws, event.value);
            res := Abort(true);
            DecidedNow(cfg, env, saws, saw, res);
            saws := saws + [saw];
            return;
        }
      }
      if closing {
        res := Leave(actor, last);
        DecidedNow(cfg, env, saws, saw, res);
        saws := saws + [saw];
      } else {
        res := Suspended;
        DecidedWaits(cfg, env, saws);
      }
    }
  }
}

/**
 * Liveness of the loop as a decreasing measure: once the mailbox is closed, or a Stop is queued that
 * nothing displaces, the loop can take only so many more steps, and until it ended it can take one.
 */
module ProtocolMeasure {
  import opened Base
  import opened Mailbox
  import opened Behaviour
  import opened Protocol
  import opened LoopInvariants
  import opened ProtocolInvariants
  import opened ClientInvariants
  import opened ProtocolTheorems
  import opened ProtocolProgress

  /** Loop steps that one queued payload can still cost, its dequeue included. */
  function PayloadCost<A, R>(p: Payload<A, R>): nat {
    match p
    case Task(script, _) => |script.steps| + 2
    case Restart => 3
    case Stop => 2
  }

  function QueueCost<A, R>(q: seq<Payload<A, R>>): nat {
    if q == [] then 0 else PayloadCost(q[0]) + QueueCost(q[1..])
  }

  predicate Live(p: Phase) { p.Spawned? || p.Booting? || p.Idle? || p.Busy? }

  function NotifierCost(n: Notifier): nat {
    if n.Armed? then 2 else if n.Lowered? then 1 else 0
  }

  ghost function TurnCost<A, R>(t: Turn<A, R>): nat {
    match t.work
    case Run(script) => 1 + if t.ran <= |script.steps| then |script.steps| - t.ran else 0
    case Refresh => if t.ran == 0 then 2 else 1
    case Conclude => 1
    case Halt => 0
  }

  /** Loop steps left on the way out of the current phase, not counting queued payloads. */
  ghost function PhaseCost<A, R>(lp: Loop<A, R>): nat {
    match lp.phase
    case Spawned => 10
    case Booting => 9
    case Idle => 8
    case Busy => 8 + if lp.turns == [] then 0 else TurnCost(Last(lp))
    case Closing => 7
    case Cancelling => 6
    case Notifying => 4 + NotifierCost(lp.notifier)
    case Unwinding => 1 + NotifierCost(lp.notifier) + (if lp.rx then 1 else 0) + (if lp.ctx then 1 else 0)
    case Ended => 0
  }

  /** The accepted entries before the n-th that are still queued. */
  ghost function Ahead<A, R>(s: State<A, R>, n: nat): seq<Payload<A, R>> {
    if |s.led.fates| <= n <= |s.led.accepted| then s.led.accepted[|s.led.fates|..n] else []
  }

  /** How many steps the loop can still take if nothing beyond the first `n` entries is dequeued. */
  ghost function Remaining<A, R>(s: State<A, R>, n: nat): nat {
    PhaseCost(s.loop) + if Live(s.loop.phase) then QueueCost(Ahead(s, n)) else 0
  }

  lemma PhaseRevised<A, R>(cfg: Config<A>, lp: Loop<A, R>, led: Ledger<Payload<A, R>>, l: Label<A, R>)
    requires LoopLabel(l) && LoopEnabled(cfg, lp, led.box, l) && OutcomeInv(cfg, lp) && ExitInv(cfg, lp)
    requires Working(lp) && (Revises(l) || l.Panic?)
    ensures PhaseCost(LoopNext(cfg, lp, led, l)) < PhaseCost(lp)
    ensures Live(LoopNext(cfg, lp, led, l).phase) ==> Live(lp.phase)
  {
    hide LoopNext, AllGood, Replay, RevisedHooks, RevisedActor;
    LastGood(cfg, lp);
    RevisionForm(cfg, lp, led, l);
  }

  lemma PhaseStep<A, R>(cfg: Config<A>, lp: Loop<A, R>, led: Ledger<Payload<A, R>>, l: Label<A, R>)
    requires LoopLabel(l) && LoopEnabled(cfg, lp, led.box, l) && OutcomeInv(cfg, lp) && ExitInv(cfg, lp)
    requires !l.StreamItem? && !l.StreamEnd? && !l.Recv?
    ensures PhaseCost(LoopNext(cfg, lp, led, l)) < PhaseCost(lp)
    ensures Live(LoopNext(cfg, lp, led, l).phase) ==> Live(lp.phase)
  {
    if Revises(l) || (l.Panic? && Working(lp)) {
      hide OutcomeInv, ExitInv, LoopNext, PhaseCost;
      if Revises(l) {
        RevisedWorks(cfg, lp, led, l);
      }
      PhaseRevised(cfg, lp, led, l);
    } else {
      hide TakePayload, RunMicro, RunTimeout, RefreshDown, RefreshUp, EndTurn, AllGood, Replay;
    }
  }

  lemma TakeCost<A, R>(cfg: Config<A>, lp: Loop<A, R>, p: Payload<A, R>, e: nat)
    requires lp.phase.Idle? && lp.notifier.Armed? && lp.rx && lp.ctx
    ensures var np := TakePayload(cfg, lp, p, e);
            PhaseCost(np) < PhaseCost(lp) + PayloadCost(p)
  {
  }

  /** What the stream adds to the work of the loop when it yields an item, or ends. */
  function StreamCost<A, R>(l: Label<A, R>): nat {
    if l.StreamItem? then |l.script.steps| + 2 else if l.StreamEnd? then 2 else 0
  }

  lemma StreamPhase<A, R>(cfg: Config<A>, lp: Loop<A, R>, led: Ledger<Payload<A, R>>, l: Label<A, R>)
    requires LoopLabel(l) && LoopEnabled(cfg, lp, led.box, l) && (l.StreamItem? || l.StreamEnd?)
    ensures var np := LoopNext(cfg, lp, led, l);
            np.phase.Busy? && lp.phase.Idle? && PhaseCost(np) + 1 <= PhaseCost(lp) + StreamCost(l)
  {
    StreamTurn(cfg, lp, led, l);
    assert LoopNext(cfg, lp, led, l).phase.Busy? by {
      hide TakePayload, RefreshStage, RunTimeout, RunMicro, RefreshDown, RefreshUp, EndTurn;
    }
    hide LoopNext;
  }

  lemma RecvDecreases<A, R>(s: State<A, R>, n: nat)
    requires MailboxInv(s) && ExitInv(s.cfg, s.loop) && Enabled(s, Label<A, R>.Recv) && |s.led.fates| < n <= |s.led.accepted|
    ensures Remaining(Step(s, Label<A, R>.Recv), n) < Remaining(s, n)
  {
    hide LoopSlots, ClientStep, PhaseCost, PayloadCost, Step, TakePayload;
    StepLoop(s, Label<A, R>.Recv);
    assert s.led.box.queue[0] == s.led.accepted[|s.led.fates|];
    TakeCost(s.cfg, s.loop, s.led.box.queue[0], |s.led.fates|);
    assert Ahead(Step(s, Label<A, R>.Recv), n) == Ahead(s, n)[1..];
  }

  /** Every loop step brings the loop closer to its end, but for what the stream adds. */
  lemma LoopDecreases<A, R>(s: State<A, R>, l: Label<A, R>, n: nat)
    requires FullInv(s) && Enabled(s, l) && LoopLabel(l)
    requires n <= |s.led.accepted| && (l.Recv? ==> |s.led.fates| < n)
    ensures Remaining(Step(s, l), n) + 1 <= Remaining(s, n) + StreamCost(l)
  {
    assert MailboxInv(s) && OutcomeInv(s.cfg, s.loop) && ExitInv(s.cfg, s.loop);
    hide FullInv, MailboxInv, OutcomeInv, ExitInv, LoopSlots, ClientStep, PhaseCost, PayloadCost, Step, LoopNext;
    if l.Recv? {
      hide Enabled, Remaining;
      RecvDecreases(s, n);
    } else {
      StepLoop(s, l);
      hide Enabled;
      assert Ahead(Step(s, l), n) == Ahead(s, n);
      if l.StreamItem? || l.StreamEnd? {
        StreamPhase(s.cfg, s.loop, s.led, l);
      } else {
        PhaseStep(s.cfg, s.loop, s.led, l);
      }
    }
  }

  lemma AheadShrinks<A, R>(xs: seq<Payload<A, R>>, k: nat, ys: seq<Payload<A, R>>, m: nat, n: nat)
    requires k <= |xs| && m <= |ys| && xs <= ys && k <= m <= k + 1 && n <= |xs|
    ensures var a, b := if k <= n then xs[k..n] else [], if m <= n then ys[m..n] else [];
            QueueCost(b) <= QueueCost(a)
  {
    if m <= n {
      assert ys[m..n] == xs[k..n][m - k..];
    }
  }

  lemma ClientLedger<A, R>(s: State<A, R>, l: Label<A, R>)
    requires FullInv(s) && Enabled(s, l) && !LoopLabel(l)
    ensures var t := Step(s, l);
            && t.loop == s.loop && s.led.accepted <= t.led.accepted
            && |s.led.fates| <= |t.led.fates| <= |s.led.fates| + 1
            && |s.led.fates| <= |s.led.accepted| && |t.led.fates| <= |t.led.accepted|
  {
    assert MailboxInv(s);
    hide FullInv, LoopStep, DoDeliver;
    if l.Deliver? {
      DeliverCases(s, l.op);
    } else {
      QuietClient(s, l);
    }
  }

  /** Clients cannot give the loop more work ahead of the n-th entry. */
  lemma ClientKeeps<A, R>(s: State<A, R>, l: Label<A, R>, n: nat)
    requires FullInv(s) && Enabled(s, l) && !LoopLabel(l) && n <= |s.led.accepted|
    ensures Remaining(Step(s, l), n) <= Remaining(s, n)
  {
    hide FullInv, Step, Enabled, PhaseCost, QueueCost;
    ClientLedger(s, l);
    var t := Step(s, l);
    AheadShrinks(s.led.accepted, |s.led.fates|, t.led.accepted, |t.led.fates|, n);
  }

  // ----- runs -----

  function LoopSteps<A, R>(ls: seq<Label<A, R>>): nat {
    if ls == [] then 0 else (if LoopLabel(ls[0]) then 1 else 0) + LoopSteps(ls[1..])
  }

  /** What the stream adds to the work of the loop along a run. */
  function StreamCosts<A, R>(ls: seq<Label<A, R>>): nat {
    if ls == [] then 0 else StreamCost(ls[0]) + StreamCosts(ls[1..])
  }

  /** Along the run the loop never dequeues an entry at or beyond `n`. */
  ghost predicate StaysBefore<A, R>(s: State<A, R>, ls: seq<Label<A, R>>, n: nat)
    requires IsRun(s, ls)
    decreases |ls|
  {
    ls == [] || ((ls[0].Recv? ==> |s.led.fates| < n) && StaysBefore(Step(s, ls[0]), ls[1..], n))
  }

  lemma {:induction false} Budget<A, R>(s: State<A, R>, ls: seq<Label<A, R>>, n: nat)
    requires FullInv(s) && IsRun(s, ls) && n <= |s.led.accepted| && StaysBefore(s, ls, n)
    ensures LoopSteps(ls) + Remaining(After(s, ls), n) <= Remaining(s, n) + StreamCosts(ls)
    decreases |ls|
  {
    hide FullInv, Step, Enabled, Remaining, StreamCost;
    if ls != [] {
      var t := Step(s, ls[0]);
      FullStep(s, ls[0]);
      RunGrowsOnce(s, ls[0]);
      if LoopLabel(ls[0]) {
        LoopDecreases(s, ls[0], n);
      } else {
        ClientKeeps(s, ls[0], n);
      }
      Budget(t, ls[1..], n);
    }
  }

  lemma RunGrowsOnce<A, R>(s: State<A, R>, l: Label<A, R>)
    requires FullInv(s) && Enabled(s, l)
    ensures Grows(s, Step(s, l))
  {
    hide FullInv, Step, Grows;
    if LoopLabel(l) {
      GrowLoop(s, l);
    } else {
      GrowClient(s, l);
    }
  }

  /** A closed mailbox accepts nothing more, so the loop stays within what is queued. */
  lemma {:induction false} ClosedStaysBefore<A, R>(s: State<A, R>, ls: seq<Label<A, R>>)
    requires FullInv(s) && IsRun(s, ls) && s.led.box.closed
    ensures StaysBefore(s, ls, |s.led.accepted|)
    decreases |ls|
  {
    hide FullInv, Step, Enabled;
    if ls != [] {
      var l := ls[0];
      FullStep(s, l);
      ClosedStep(s, l);
      ClosedStaysBefore(Step(s, l), ls[1..]);
    }
  }

  lemma ClosedStep<A, R>(s: State<A, R>, l: Label<A, R>)
    requires FullInv(s) && Enabled(s, l) && s.led.box.closed
    ensures Step(s, l).led.box.closed && Step(s, l).led.accepted == s.led.accepted
    ensures l.Recv? ==> |s.led.fates| < |s.led.accepted|
  {
    assert MailboxInv(s);
    hide FullInv, LoopNext, LoopSlots, DoDeliver;
    if LoopLabel(l) {
      hide ClientStep;
    } else if l.Deliver? {
      DeliverCases(s, l.op);
    } else {
      QuietClient(s, l);
      hide ClientStep;
    }
  }

  /** A queued Stop that is not displaced keeps the loop from ever dequeuing what is behind it. */
  lemma {:induction false} StopStaysBefore<A, R>(s: State<A, R>, ls: seq<Label<A, R>>, e: nat)
    requires FullInv(s) && IsRun(s, ls) && e < |s.led.accepted| && s.led.accepted[e].Stop?
    requires e < |After(s, ls).led.fates| ==> After(s, ls).led.fates[e].Taken?
    ensures StaysBefore(s, ls, e + 1)
    decreases |ls|
  {
    RunGrows(s, ls);
    assert Extends(s.led, After(s, ls).led);
    hide Step, Enabled;
    if ls != [] {
      var l := ls[0];
      var t := Step(s, l);
      FullStep(s, l);
      RunGrowsOnce(s, l);
      if |s.led.fates| > e {
        StopEndsLoop(s, e);
        OnlyIdleReceives(s, l);
      }
      hide FullInv;
      StopStaysBefore(t, ls[1..], e);
    }
  }

  lemma OnlyIdleReceives<A, R>(s: State<A, R>, l: Label<A, R>)
    requires Enabled(s, l)
    ensures l.Recv? ==> s.loop.phase.Idle?
    ensures LoopLabel(l) ==> !s.loop.phase.Ended?
  {
  }

  /** The loop step that is open to the loop without a failure, whenever it is not waiting for a payload. */
  ghost function NextLabel<A, R>(lp: Loop<A, R>, box: Box<Payload<A, R>>): Label<A, R> {
    match lp.phase
    case Spawned => Boot
    case Booting => BootDone(true)
    case Idle => if box.queue == [] then ChannelEnd else Recv
    case Busy => if lp.turns == [] then FinishedDone else NextOfTurn(Last(lp))
    case Closing => StoppedDone
    case Cancelling => CancelledDone
    case Notifying => if lp.notifier.Armed? then Lower else Fire
    case _ =>
      if lp.notifier.Armed? then Lower
      else if lp.notifier.Lowered? then Fire
      else if lp.rx then DropRx
      else if lp.ctx then DropCtx
      else Label.Exit
  }

  ghost function NextOfTurn<A, R>(t: Turn<A, R>): Label<A, R> {
    match t.work
    case Run(script) => if t.ran < |script.steps| then Micro else Complete
    case Refresh => if t.ran == 0 then RestartStopped else RestartStarted(true)
    case _ => FinishedDone
  }

  /** The loop only ever waits in `Idle` for a payload: everywhere else, and then, it can go on. */
  lemma NeverStuck<A, R>(cfg: Config<A>, ls: seq<Label<A, R>>, s: State<A, R>)
    requires Reaches(cfg, ls, s) && !s.loop.phase.Ended?
    requires s.loop.phase.Idle? ==> s.led.box.queue != [] || s.led.box.closed
    ensures LoopLabel(NextLabel(s.loop, s.led.box)) && Enabled(s, NextLabel(s.loop, s.led.box))
  {
    hide NextLabel, ClientEnabled, LoopEnabled;
    Reachable(cfg, ls);
    assert OutcomeInv(s.cfg, s.loop) && ExitInv(s.cfg, s.loop);
    hide FullInv;
    NextEnabled(s.cfg, s.loop, s.led.box);
  }

  lemma NextEnabled<A, R>(cfg: Config<A>, lp: Loop<A, R>, box: Box<Payload<A, R>>)
    requires OutcomeInv(cfg, lp) && ExitInv(cfg, lp) && !lp.phase.Ended?
    requires lp.phase.Idle? ==> box.queue != [] || box.closed
    ensures LoopLabel(NextLabel(lp, box)) && LoopEnabled(cfg, lp, box, NextLabel(lp, box))
  {
    hide OutcomeInv;
    if lp.phase.Busy? {
      BusyShape(cfg, lp);
    } else {
      hide NextOfTurn;
    }
  }

  lemma BusyShape<A, R>(cfg: Config<A>, lp: Loop<A, R>)
    requires OutcomeInv(cfg, lp) && lp.phase.Busy?
    ensures lp.turns != [] && !Last(lp).work.Halt?
    ensures Last(lp).work.Run? ==> Last(lp).ran <= |Last(lp).work.script.steps|
    ensures Last(lp).work.Refresh? ==> Last(lp).ran <= 1
  {
    LastGood(cfg, lp);
  }

  /**
   * After the last strong handle is gone (or the receiver is), the loop takes at most `Remaining` more
   * steps, and what the items of a stream cost, in whatever interleaving follows; with `NeverStuck` and
   * `GracefulDrain`, a loop that keeps being polled drains what was accepted and ends.
   */
  lemma DrainTerminates<A, R>(
    cfg: Config<A>, ls: seq<Label<A, R>>, s: State<A, R>, more: seq<Label<A, R>>)
    requires Reaches(cfg, ls, s) && s.led.box.closed && IsRun(s, more)
    ensures LoopSteps(more) + Remaining(After(s, more), |s.led.accepted|) <= Remaining(s, |s.led.accepted|) + StreamCosts(more)
  {
    Reachable(cfg, ls);
    ClosedStaysBefore(s, more);
    Budget(s, more, |s.led.accepted|);
  }

  /**
   * Once a Stop is queued as entry `e`, then as long as it is not displaced the loop takes at most
   * `Remaining(s, e + 1)` more steps, and what the items of a stream cost, however much clients send behind it.
   */
  lemma StopTerminates<A, R>(
    cfg: Config<A>, ls: seq<Label<A, R>>, s: State<A, R>, e: nat, more: seq<Label<A, R>>)
    requires Reaches(cfg, ls, s) && e < |s.led.accepted| && s.led.accepted[e].Stop?
    requires IsRun(s, more)
    requires e < |After(s, more).led.fates| ==> After(s, more).led.fates[e].Taken?
    ensures LoopSteps(more) + Remaining(After(s, more), e + 1) <= Remaining(s, e + 1) + StreamCosts(more)
  {
    hide FullInv, Remaining, Enabled, Step, LoopSteps, InitState;
    Reachable(cfg, ls);
    StopStaysBefore(s, more, e);
    Budget(s, more, e + 1);
  }

  /** Whichever exit the loop takes, it publishes its end and is gone within seven more steps of its own. */
  lemma {:induction false} ExitTerminates<A, R>(s: State<A, R>, more: seq<Label<A, R>>)
    requires FullInv(s) && !Live(s.loop.phase) && IsRun(s, more)
    ensures LoopSteps(more) + PhaseCost(After(s, more).loop) <= PhaseCost(s.loop) <= 7
    ensures LoopSteps(more) >= PhaseCost(s.loop) ==> After(s, more).loop.phase.Ended?
    decreases |more|
  {
    hide Step, Enabled, FullInv;
    if more != [] {
      var t := Step(s, more[0]);
      FullStep(s, more[0]);
      ExitDecreases(s, more[0]);
      ExitTerminates(t, more[1..]);
    } else {
      ExitCost(s);
    }
  }

  lemma ExitCost<A, R>(s: State<A, R>)
    requires FullInv(s) && !Live(s.loop.phase)
    ensures PhaseCost(s.loop) <= 7 && (PhaseCost(s.loop) == 0 <==> s.loop.phase.Ended?)
  {
  }

  lemma ExitDecreases<A, R>(s: State<A, R>, l: Label<A, R>)
    requires FullInv(s) && Enabled(s, l) && !Live(s.loop.phase)
    ensures var t := Step(s, l);
            !Live(t.loop.phase) && PhaseCost(t.loop) + (if LoopLabel(l) then 1 else 0) <= PhaseCost(s.loop) <= 7
  {
    ExitCost(s);
    OnlyIdleReceives(s, l);
    if LoopLabel(l) {
      LoopLabelEnabled(s, l);
      PhaseStep(s.cfg, s.loop, s.led, l);
      hide FullInv, PhaseCost, LoopNext, ClientStep, Enabled, LoopSlots, LoopLedger;
    } else {
      ClientLedger(s, l);
      hide Step, FullInv, PhaseCost;
    }
  }
}

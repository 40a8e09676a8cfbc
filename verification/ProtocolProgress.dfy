/**
 * What an actor's future holds: history only grows, a pending Stop or a closed mailbox bounds the work
 * the loop can still do, the loop is never blocked on the way to its end, and a refusal means what it says.
 */
module ProtocolProgress {
  import opened Base
  import opened Mailbox
  import opened Behaviour
  import opened Protocol
  import opened LoopInvariants
  import opened ProtocolInvariants
  import opened ClientInvariants
  import opened ProtocolTheorems

  // ----- history only grows -----

  ghost predicate TurnsGrow<A, R>(us: seq<Turn<A, R>>, vs: seq<Turn<A, R>>) {
    && |us| <= |vs|
    && forall p :: 0 <= p < |us| ==> vs[p].source == us[p].source && vs[p].work == us[p].work
  }

  ghost predicate OpsGrow<A, R>(ops: seq<Op<A, R>>, oqs: seq<Op<A, R>>) {
    && |ops| <= |oqs|
    && forall o :: 0 <= o < |ops| ==>
         oqs[o].api == ops[o].api && (ops[o].entry.Some? ==> oqs[o].entry == ops[o].entry)
         && (!Active(ops[o]) ==> oqs[o].pc == ops[o].pc)
  }

  ghost predicate Grows<A, R>(s: State<A, R>, t: State<A, R>) {
    && t.cfg == s.cfg
    && Extends(s.led, t.led)
    && TurnsGrow(s.loop.turns, t.loop.turns)
    && OpsGrow(s.ops, t.ops)
    && (!s.loop.flag ==> !t.loop.flag)
  }

  lemma TurnsGrowLoop<A, R>(cfg: Config<A>, lp: Loop<A, R>, led: Ledger<Payload<A, R>>, l: Label<A, R>)
    requires LoopLabel(l) && LoopEnabled(cfg, lp, led.box, l)
    ensures TurnsGrow(lp.turns, LoopNext(cfg, lp, led, l).turns)
  {
    hide LoopEnabled;
    if Appends(l) {
      AppendTurns(cfg, lp, led, l);
    } else if Revises(l) || (l.Panic? && Working(lp)) {
      ReviseTurns(cfg, lp, led, l);
    } else {
      KeepTurns(cfg, lp, led, l);
    }
    hide LoopNext;
  }

  lemma SlotsGrow<A, R>(ops: seq<Op<A, R>>, r: Option<nat>, slot: Slot<R>)
    ensures OpsGrow(ops, SetSlot(ops, r, slot)) && OpsGrow(ops, ops)
  {
  }

  lemma SlotsGrowLoop<A, R>(s: State<A, R>, l: Label<A, R>)
    requires Enabled(s, l) && LoopLabel(l)
    ensures OpsGrow(s.ops, LoopSlots(s, l))
  {
    SlotsGrow(s.ops, CurrentReply(s), Lost);
    StepLoop(s, l);
    if l.Complete? {
      SlotsGrow(s.ops, CurrentReply(s), Sent(Last(s.loop).work.script.answer(s.loop.actor)));
    }
    hide LoopNext, Enabled, CurrentReply, OpsGrow, SetSlot, Step;
  }

  lemma LedgerGrowsLoop<A, R>(s: State<A, R>, l: Label<A, R>)
    requires MailboxInv(s) && Enabled(s, l) && LoopLabel(l)
    ensures Extends(s.led, LoopLedger(s, l))
  {
    StepLoop(s, l);
    hide LoopNext, Enabled, MailboxInv, Step, LoopSlots;
  }

  lemma GrowLoop<A, R>(s: State<A, R>, l: Label<A, R>)
    requires FullInv(s) && Enabled(s, l) && LoopLabel(l)
    ensures Grows(s, Step(s, l))
  {
    assert MailboxInv(s);
    hide FullInv, MailboxInv, Enabled, LoopNext, Step, LoopEnabled, TurnsGrow, OpsGrow, Extends, LoopLedger, LoopSlots;
    StepLoop(s, l);
    FlagFalls(s.cfg, s.loop, s.led, l);
    TurnsGrowLoop(s.cfg, s.loop, s.led, l);
    SlotsGrowLoop(s, l);
    LedgerGrowsLoop(s, l);
  }

  lemma FlagFalls<A, R>(cfg: Config<A>, lp: Loop<A, R>, led: Ledger<Payload<A, R>>, l: Label<A, R>)
    requires LoopLabel(l) && LoopEnabled(cfg, lp, led.box, l)
    ensures LoopNext(cfg, lp, led, l).flag == (lp.flag && !l.Lower?)
  {
    hide RefreshStage, TakePayload;
    if l.Recv? {
      RecvTurn(cfg, lp, led.box.queue[0], |led.fates|);
    }
  }

  lemma GrowDeliver<A, R>(s: State<A, R>, o: nat)
    requires OpInv(s) && MailboxInv(s) && Enabled(s, Label.Deliver(o))
    ensures Grows(s, DoDeliver(s, o))
  {
    assert o < |s.ops|;
    hide Enabled, OpInv, Conserved, DoDeliver, SetSlot, Victim, Refuses, Full, RefusalOf, OpRefs, OpsGrow;
    DeliverCases(s, o);
    DeliverForces(s, o);
    DeliverOps(s, o);
  }

  lemma DeliverOps<A, R>(s: State<A, R>, o: nat)
    requires OpInv(s) && MailboxInv(s) && Enabled(s, Label.Deliver(o))
    ensures OpsGrow(s.ops, DoDeliver(s, o).ops)
  {
    hide OpInv, MailboxInv, SetSlot, Victim, Refuses, Full, RefusalOf, OpRefs;
    PcAt(s, o);
    if !Refuses(s, o) {
      AcceptShape(s, o);
      hide DoDeliver;
    }
  }

  lemma DeliverForces<A, R>(s: State<A, R>, o: nat)
    requires o < |s.ops|
    ensures s.led.forces <= DoDeliver(s, o).led.forces
    ensures s.led.box.closed ==> DoDeliver(s, o).led.box.closed
  {
    hide OpRefs;
  }

  lemma GrowClient<A, R>(s: State<A, R>, l: Label<A, R>)
    requires FullInv(s) && Enabled(s, l) && !LoopLabel(l)
    ensures Grows(s, Step(s, l))
  {
    assert OpInv(s) && MailboxInv(s);
    hide FullInv, OpInv, MailboxInv, Step, ClientStep, Enabled, DoDeliver, OpsGrow, TurnsGrow, Extends;
    StepClient(s, l);
    if l.Deliver? {
      StepDeliver(s, l.op);
      GrowDeliver(s, l.op);
    } else {
      GrowQuiet(s, l);
    }
  }

  lemma GrowQuiet<A, R>(s: State<A, R>, l: Label<A, R>)
    requires Enabled(s, l) && !LoopLabel(l) && !l.Deliver?
    ensures Grows(s, ClientStep(s, l))
  {
    hide ClientStep, Enabled, OpsGrow;
    QuietClient(s, l);
    QuietOps(s, l);
  }

  lemma QuietOps<A, R>(s: State<A, R>, l: Label<A, R>)
    requires Enabled(s, l) && !LoopLabel(l) && !l.Deliver?
    ensures OpsGrow(s.ops, ClientStep(s, l).ops)
  {
    hide LoopStep, OpRefs, HandleRefs, CheckResult, Upgradable, DoDeliver;
    if l.LoseQueued? {
      SlotsGrow(s.ops, ReplyOf(s.led.accepted[l.entry]), Lost);
    }
  }

  lemma GrowsTransitive<A, R>(s: State<A, R>, t: State<A, R>, u: State<A, R>)
    requires Grows(s, t) && Grows(t, u)
    ensures Grows(s, u)
  {
    forall o | 0 <= o < |s.ops|
      ensures u.ops[o].api == s.ops[o].api && (s.ops[o].entry.Some? ==> u.ops[o].entry == s.ops[o].entry)
      ensures !Active(s.ops[o]) ==> u.ops[o].pc == s.ops[o].pc
    {
      assert t.ops[o].api == s.ops[o].api;
    }
  }

  /** Along every run histories extend, a lowered flag stays down, and what an operation returned stands. */
  lemma {:induction false} RunGrows<A, R>(s: State<A, R>, ls: seq<Label<A, R>>)
    requires FullInv(s) && IsRun(s, ls)
    ensures Grows(s, After(s, ls)) && FullInv(After(s, ls))
    decreases |ls|
  {
    if ls != [] {
      var t := Step(s, ls[0]);
      FullStep(s, ls[0]);
      if LoopLabel(ls[0]) {
        GrowLoop(s, ls[0]);
      } else {
        GrowClient(s, ls[0]);
      }
      hide FullInv, Step, Enabled, Grows;
      RunGrows(t, ls[1..]);
      GrowsTransitive(s, t, After(t, ls[1..]));
    } else {
      hide FullInv, Step, Enabled;
    }
  }

  /** A call that returned `Canceled` is canceled for good: its handler never completes, however the run goes on. */
  lemma CanceledForGood<A, R>(cfg: Config<A>, ls: seq<Label<A, R>>, s: State<A, R>, more: seq<Label<A, R>>, o: nat)
    requires Reaches(cfg, ls, s) && IsRun(s, more) && o < |s.ops| && s.ops[o].pc == Done(Err(Canceled))
    ensures var t := After(s, more);
            && o < |t.ops| && t.ops[o].pc == s.ops[o].pc && s.ops[o].entry.Some? && t.ops[o].entry == s.ops[o].entry
            && forall p :: Handles(t, p, s.ops[o].entry.value) ==> t.loop.turns[p].outcome in {Outcome<R>.Cut, Broken}
  {
    hide FullInv, Step, Enabled;
    Reachable(cfg, ls);
    CanceledTurns(s, o);
    RunGrows(s, more);
    CanceledTurns(After(s, more), o);
  }

  /** A weak handle that could not be upgraded can never be upgraded again. */
  lemma FailedUpgradeStaysFailed<A, R>(cfg: Config<A>, ls: seq<Label<A, R>>, s: State<A, R>, more: seq<Label<A, R>>)
    requires Reaches(cfg, ls, s) && IsRun(s, more) && !Upgradable(s.led.box)
    ensures !Upgradable(After(s, more).led.box)
  {
    hide FullInv, Step, Enabled;
    Reachable(cfg, ls);
    ReferencesExact(cfg, ls, s);
    RunGrows(s, more);
  }

  // ----- late operations -----

  /** An operation that got nowhere: it has not looked at the flag yet, was given up, was refused, or only awaited the end. */
  predicate GotNowhere<A, R>(op: Op<A, R>) {
    && op.entry.None? && !FromContext(op.api)
    && (op.pc.Start? || op.pc.Dropped? || op.pc == Done(Err(RefusalOf(op.api)))
        || (op.api.AddrAwait? && op.pc == Done(Ok(None))))
  }

  ghost predicate AllNowhere<A, R>(ops: seq<Op<A, R>>, n: nat) {
    n <= |ops| && forall o :: n <= o < |ops| ==> GotNowhere(ops[o])
  }

  lemma NowhereSlots<A, R>(ops: seq<Op<A, R>>, n: nat, r: Option<nat>, slot: Slot<R>)
    requires AllNowhere(ops, n)
    ensures AllNowhere(SetSlot(ops, r, slot), n)
  {
  }

  lemma NowhereLoop<A, R>(s: State<A, R>, l: Label<A, R>, n: nat)
    requires Enabled(s, l) && LoopLabel(l) && AllNowhere(s.ops, n)
    ensures AllNowhere(Step(s, l).ops, n)
  {
    StepLoop(s, l);
    hide LoopNext, Enabled, CurrentReply, AllNowhere, SetSlot, Step;
    NowhereSlots(s.ops, n, CurrentReply(s), Lost);
    if l.Complete? {
      NowhereSlots(s.ops, n, CurrentReply(s), Sent(Last(s.loop).work.script.answer(s.loop.actor)));
    }
  }

  lemma NowhereDeliver<A, R>(s: State<A, R>, o: nat, n: nat)
    requires OpInv(s) && MailboxInv(s) && Enabled(s, Label.Deliver(o)) && AllNowhere(s.ops, n)
    ensures AllNowhere(DoDeliver(s, o).ops, n)
  {
    assert o < n;
    if Refuses(s, o) {
      hide OpRefs, OpInv, MailboxInv, Enabled;
    } else {
      AcceptShape(s, o);
      hide OpRefs, OpInv, MailboxInv, DoDeliver, SetSlot, Victim, Refuses, Enabled;
    }
  }

  lemma NowhereClient<A, R>(s: State<A, R>, l: Label<A, R>, n: nat)
    requires !s.loop.flag && !HookRunning(s.loop.phase) && Enabled(s, l) && !LoopLabel(l) && !l.Deliver?
    requires AllNowhere(s.ops, n)
    ensures AllNowhere(ClientStep(s, l).ops, n)
  {
    hide LoopStep, OpRefs, HandleRefs, Upgradable, DoDeliver;
    if l.LoseQueued? {
      hide AllNowhere, SetSlot;
      NowhereSlots(s.ops, n, ReplyOf(s.led.accepted[l.entry]), Lost);
    }
  }

  lemma NowhereStep<A, R>(s: State<A, R>, l: Label<A, R>, n: nat)
    requires FullInv(s) && !s.loop.flag && Enabled(s, l) && AllNowhere(s.ops, n)
    ensures AllNowhere(Step(s, l).ops, n) && FullInv(Step(s, l)) && !Step(s, l).loop.flag
  {
    assert ExitInv(s.cfg, s.loop) && OpInv(s) && MailboxInv(s);
    assert !HookRunning(s.loop.phase);
    FullStep(s, l);
    SilentStep(s, l);
    hide FullInv, ExitInv, OpInv, MailboxInv, AllNowhere, LoopStep;
    if LoopLabel(l) {
      NowhereLoop(s, l, n);
      hide Step;
    } else if l.Deliver? {
      NowhereDeliver(s, l.op, n);
      StepDeliver(s, l.op);
      hide Step, DoDeliver;
    } else {
      NowhereClient(s, l, n);
      hide ClientStep, Enabled;
    }
  }

  /** Whatever begins once the flag is down is refused: it never reaches the mailbox, however the run goes on. */
  lemma LateOperationsRefused<A, R>(
    cfg: Config<A>, ls: seq<Label<A, R>>, s: State<A, R>, more: seq<Label<A, R>>, o: nat)
    requires Reaches(cfg, ls, s) && !s.loop.flag && IsRun(s, more)
    requires |s.ops| <= o < |After(s, more).ops|
    ensures var op := After(s, more).ops[o];
            && op.entry.None? && !op.pc.Cleared? && !op.pc.Waiting?
            && (op.pc.Done? ==> op.pc == Done(Err(RefusalOf(op.api))) || (op.api.AddrAwait? && op.pc == Done(Ok(None))))
  {
    Reachable(cfg, ls);
    NowhereRun(s, more, |s.ops|);
  }

  lemma {:induction false} NowhereRun<A, R>(s: State<A, R>, more: seq<Label<A, R>>, n: nat)
    requires FullInv(s) && !s.loop.flag && IsRun(s, more) && AllNowhere(s.ops, n)
    ensures AllNowhere(After(s, more).ops, n)
    decreases |more|
  {
    hide FullInv, Step, Enabled, AllNowhere;
    if more != [] {
      NowhereStep(s, more[0], n);
      NowhereRun(Step(s, more[0]), more[1..], n);
    }
  }

  // ----- the stop bound -----

  function CountTaken(fates: seq<Fate>): nat {
    if fates == [] then 0
    else CountTaken(fates[..|fates| - 1]) + if fates[|fates| - 1].Taken? then 1 else 0
  }

  /** Between two prefixes at most as many entries were taken as lie between them and before a cut-off. */
  lemma {:induction false} TakenBetween(fates: seq<Fate>, m: nat, n: nat)
    requires m <= |fates| && m <= n
    requires forall i :: n <= i < |fates| ==> !fates[i].Taken?
    ensures CountTaken(fates) <= CountTaken(fates[..m]) + (n - m)
    decreases |fates|
  {
    if |fates| == m {
      assert fates[..m] == fates;
    } else {
      var last := |fates| - 1;
      assert fates[..last][..m] == fates[..m];
      TakenBetween(fates[..last], m, if n <= last then n else last);
    }
  }

  lemma TakenOrder<A, R>(s: State<A, R>, e: nat, d: nat)
    requires FullInv(s) && e < d < |s.led.fates| && s.led.fates[e].Taken?
    ensures s.led.fates[d].Taken? ==> s.led.fates[e].turn < s.led.fates[d].turn < |s.loop.turns|
  {
    assert s.loop.turns[s.led.fates[e].turn].source == Source.Mailbox(e);
    assert s.led.fates[d].Taken? ==> s.loop.turns[s.led.fates[d].turn].source == Source.Mailbox(d);
  }

  lemma StopTurn<A, R>(s: State<A, R>, e: nat)
    requires FullInv(s) && e < |s.led.fates| && s.led.accepted[e].Stop? && s.led.fates[e].Taken?
    ensures s.loop.turns != [] && s.led.fates[e].turn == |s.loop.turns| - 1
    ensures Last(s.loop).work.Halt? && !Last(s.loop).outcome.Cut?
  {
    var p := s.led.fates[e].turn;
    assert s.loop.turns[p].source == Source.Mailbox(e);
    assert GoodTurn(s.cfg, s.loop.turns, p, s.loop.phase.Busy?);
  }

  /** Nothing behind a dequeued Stop is ever taken. */
  lemma StopIsLast<A, R>(s: State<A, R>, e: nat, d: nat)
    requires FullInv(s) && e < |s.led.fates| && s.led.accepted[e].Stop? && s.led.fates[e].Taken?
    requires e < d < |s.led.fates|
    ensures !s.led.fates[d].Taken?
  {
    TakenOrder(s, e, d);
    StopTurn(s, e);
  }

  /**
   * From any moment at which a Stop is queued as entry `e`, at most as many other payloads are dequeued
   * as are ahead of it, until it is displaced; on a bounded mailbox that is fewer than the capacity.
   */
  lemma StopBound<A, R>(cfg: Config<A>, ls: seq<Label<A, R>>, s: State<A, R>, e: nat, more: seq<Label<A, R>>)
    requires Reaches(cfg, ls, s) && IsRun(s, more)
    requires |s.led.fates| <= e < |s.led.accepted| && s.led.accepted[e].Stop?
    ensures var t := After(s, more);
            (e < |t.led.fates| ==> t.led.fates[e].Taken?) ==>
              CountTaken(t.led.fates) <= CountTaken(s.led.fates) + (e - |s.led.fates|)
                                         + if e < |t.led.fates| then 1 else 0
    ensures s.cfg.capacity.Some? ==> e - |s.led.fates| < s.cfg.capacity.value
    ensures var t := After(s, more);
            e < |t.led.fates| && t.led.fates[e].Taken? ==>
              t.loop.phase in {Closing, Notifying, Unwinding, Ended}
              && forall d, p :: e < d ==> !Handles(t, p, d)
  {
    hide FullInv, TurnsGrow, OpsGrow, After, CountTaken;
    Reachable(cfg, ls);
    RunGrows(s, more);
    var t := After(s, more);
    QueuedWithin(s, e);
    var m := |s.led.fates|;
    assert t.led.fates[..m] == s.led.fates;
    if |t.led.fates| <= e {
      TakenBetween(t.led.fates, m, |t.led.fates|);
    } else if t.led.fates[e].Taken? {
      forall d | e + 1 <= d < |t.led.fates|
        ensures !t.led.fates[d].Taken?
      {
        StopIsLast(t, e, d);
      }
      TakenBetween(t.led.fates, m, e + 1);
      StopEndsLoop(t, e);
    }
  }

  lemma QueuedWithin<A, R>(s: State<A, R>, e: nat)
    requires FullInv(s) && |s.led.fates| <= e < |s.led.accepted|
    ensures s.cfg.capacity.Some? ==> e - |s.led.fates| < s.cfg.capacity.value
  {
    assert MailboxInv(s);
    hide FullInv;
  }

  lemma StopEndsLoop<A, R>(t: State<A, R>, e: nat)
    requires FullInv(t) && e < |t.led.fates| && t.led.accepted[e].Stop? && t.led.fates[e].Taken?
    ensures t.loop.phase in {Closing, Notifying, Unwinding, Ended}
    ensures forall d, p :: e < d ==> !Handles(t, p, d)
  {
    StopTurn(t, e);
    forall d, p | e < d
      ensures !Handles(t, p, d)
    {
      assert t.loop.turns[t.led.fates[e].turn].source == Source.Mailbox(e);
    }
  }
}

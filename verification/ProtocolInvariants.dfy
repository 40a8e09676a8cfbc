/**
 * The inductive invariants of the actor protocol that relate its mailbox, its loop and its clients.
 * Each group is kept by every step, so `Inv` holds in every reachable state.
 */
module ProtocolInvariants {
  import opened Base
  import opened Mailbox
  import opened Behaviour
  import opened Protocol
  import opened LoopInvariants

  ghost predicate MailboxInv<A, R>(s: State<A, R>) {
    && Conserved(s.led)
    && s.led.box.capacity == s.cfg.capacity
    && |s.stamps| == |s.led.accepted|
    && (!s.loop.rx ==> s.led.box.closed)
  }

  /** Taken entries and mailbox turns correspond one to one, in order. */
  ghost predicate Corresponds<A, R>(turns: seq<Turn<A, R>>, fates: seq<Fate>, accepted: seq<Payload<A, R>>) {
    && |fates| <= |accepted|
    && (forall e :: 0 <= e < |fates| && fates[e].Taken? ==>
          fates[e].turn < |turns| && turns[fates[e].turn].source == Source.Mailbox(e))
    && (forall p :: 0 <= p < |turns| && turns[p].source.Mailbox? ==>
          turns[p].source.entry < |fates| && fates[turns[p].source.entry] == Taken(p)
          && turns[p].work == WorkOf(accepted[turns[p].source.entry]))
    && (forall p, q :: 0 <= p < q < |turns| && turns[p].source.Mailbox? && turns[q].source.Mailbox? ==>
          turns[p].source.entry < turns[q].source.entry)
  }

  /** A loop that ended by the end of the channel left nothing behind. */
  ghost predicate DrainInv<A, R>(s: State<A, R>) {
    s.loop.exit.ByChannelEnd? ==> s.led.box.queue == [] && s.led.box.closed
  }

  /** What an operation's program counter says about its entry and reply slot. */
  ghost predicate GoodPc<A, R>(op: Op<A, R>, shots: nat) {
    match op.pc
    case Start => op.entry.None?
    case Cleared => op.entry.None? && !op.api.AddrAwait?
    case Waiting => op.entry.Some? && HasReply(op.api)
    case Dropped => op.api.AddrAwait? ==> op.entry.None?
    case Done(Ok(Some(v))) => op.entry.Some? && HasReply(op.api) && op.slot == Sent(v)
    case Done(Ok(None)) => if op.api.AddrAwait? then op.entry.None? && shots > 0 else op.entry.Some? && !HasReply(op.api)
    case Done(Err(e)) => if e.Canceled? then op.entry.Some? && HasReply(op.api) && op.slot.Lost?
                     else op.entry.None? && !op.api.AddrAwait? && Refusal(op.api, e)
  }

  /** The errors, besides `Canceled`, that an entry point answers. */
  predicate Refusal(api: Api, e: ActorError) {
    e == RefusalOf(api) || (FromContext(api) && e.ActorDropped?)
  }

  /** An operation's entry is its own payload, accepted while the operation was in progress. */
  ghost predicate GoodEntry<A, R>(
    op: Op<A, R>, o: nat, accepted: seq<Payload<A, R>>, stamps: seq<nat>, clock: nat) {
    && op.begun <= op.ended && op.ended < clock
    && (op.entry.Some? ==>
          && op.entry.value < |accepted| && op.entry.value < |stamps|
          && accepted[op.entry.value] == PayloadOf(op, o)
          && op.begun < stamps[op.entry.value] <= op.ended)
  }

  ghost predicate SlotMatches<R>(slot: Slot<R>, out: Outcome<R>) {
    match out
    case Pending => slot.Unsent?
    case Completed(a) => a.Some? && slot == Sent(a.value)
    case Cut => slot.Lost?
    case Broken => slot.Lost?
  }

  /** The reply slot agrees with what became of the operation's entry. */
  ghost predicate GoodSlot<A, R>(op: Op<A, R>, fates: seq<Fate>, turns: seq<Turn<A, R>>, rx: bool) {
    if !HasReply(op.api) || op.entry.None? then op.slot.Unsent?
    else if op.entry.value >= |fates| then op.slot.Unsent? || (op.slot.Lost? && !rx)
    else match fates[op.entry.value]
      case Displaced => op.slot.Lost?
      case Taken(p) => p < |turns| && SlotMatches(op.slot, turns[p].outcome)
  }

  /** The reply slot named by an accepted payload belongs to the operation that sent it. */
  ghost predicate ReplyLinks<A, R>(ops: seq<Op<A, R>>, accepted: seq<Payload<A, R>>) {
    forall e :: 0 <= e < |accepted| && ReplyOf(accepted[e]).Some? ==>
      ReplyOf(accepted[e]).value < |ops| && ops[ReplyOf(accepted[e]).value].entry == Some(e)
  }

  ghost predicate AllPcs<A, R>(ops: seq<Op<A, R>>, shots: nat) {
    forall o :: 0 <= o < |ops| ==> GoodPc(ops[o], shots)
  }

  ghost predicate AllEntries<A, R>(
    ops: seq<Op<A, R>>, accepted: seq<Payload<A, R>>, stamps: seq<nat>, clock: nat) {
    forall o :: 0 <= o < |ops| ==> GoodEntry(ops[o], o, accepted, stamps, clock)
  }

  ghost predicate AllSlots<A, R>(ops: seq<Op<A, R>>, fates: seq<Fate>, turns: seq<Turn<A, R>>, rx: bool) {
    forall o :: 0 <= o < |ops| ==> GoodSlot(ops[o], fates, turns, rx)
  }

  /** Acceptance times grow. */
  ghost predicate Stamped(stamps: seq<nat>, clock: nat) {
    && (forall e :: 0 <= e < |stamps| ==> stamps[e] < clock)
    && (forall d, e :: 0 <= d < e < |stamps| ==> stamps[d] < stamps[e])
  }

  ghost predicate OpInv<A, R>(s: State<A, R>) {
    && AllPcs(s.ops, s.loop.shots)
    && AllEntries(s.ops, s.led.accepted, s.stamps, s.clock)
    && AllSlots(s.ops, s.led.fates, s.loop.turns, s.loop.rx)
    && ReplyLinks(s.ops, s.led.accepted)
    && Stamped(s.stamps, s.clock)
  }

  function HandleRefsOf(hs: seq<Handle>): seq<nat> {
    seq(|hs|, i requires 0 <= i < |hs| => HandleRefs(hs[i]))
  }

  function OpRefsOf<A, R>(ops: seq<Op<A, R>>): seq<nat> {
    seq(|ops|, i requires 0 <= i < |ops| => OpRefs(ops[i]))
  }

  /** The strong count is what the live handles and the operations in flight hold, and nothing else. */
  ghost predicate RefInv<A, R>(s: State<A, R>) {
    s.led.box.strong == Sum(HandleRefsOf(s.handles)) + Sum(OpRefsOf(s.ops))
  }

  /** Only the first join can yield the actor, and only once the loop ended normally. */
  ghost predicate JoinInv<A, R>(s: State<A, R>) {
    && (forall j :: 0 < j < |s.joins| ==> s.joins[j] == Joined(None))
    && (s.joins != [] && s.joins[0].Joined? ==>
          s.loop.phase.Ended? && s.joins[0].actor == if Normal(s.loop.exit) then Some(s.loop.actor) else None)
  }

  ghost predicate Inv<A, R>(s: State<A, R>) {
    && MailboxInv(s) && Corresponds(s.loop.turns, s.led.fates, s.led.accepted)
    && LoopInv(s.cfg, s.loop) && DrainInv(s) && OpInv(s) && RefInv(s) && JoinInv(s)
  }

  lemma InitInv<A, R>(cfg: Config<A>)
    requires ValidConfig(cfg)
    ensures Inv<A, R>(InitState(cfg))
  {
    var s: State<A, R> := InitState(cfg);
    InitLoop<A, R>(cfg);
    assert HandleRefsOf(s.handles) == [1];
    assert Sum([1]) == Sum([]) + 1 by { SumAppend([], 1); assert [] + [1] == [1]; }
  }

  // ----- references -----

  lemma HandleRefsAppend(hs: seq<Handle>, h: Handle)
    ensures Sum(HandleRefsOf(hs + [h])) == Sum(HandleRefsOf(hs)) + HandleRefs(h)
  {
    SumAppend(HandleRefsOf(hs), HandleRefs(h));
    assert HandleRefsOf(hs + [h]) == HandleRefsOf(hs) + [HandleRefs(h)];
  }

  lemma HandleRefsUpdate(hs: seq<Handle>, i: nat, h: Handle)
    requires i < |hs|
    ensures Sum(HandleRefsOf(hs[i := h])) == Sum(HandleRefsOf(hs)) - HandleRefs(hs[i]) + HandleRefs(h)
    ensures Sum(HandleRefsOf(hs)) >= HandleRefs(hs[i])
  {
    SumUpdate(HandleRefsOf(hs), i, HandleRefs(h));
    assert HandleRefsOf(hs[i := h]) == HandleRefsOf(hs)[i := HandleRefs(h)];
  }

  lemma OpRefsAppend<A, R>(ops: seq<Op<A, R>>, op: Op<A, R>)
    ensures Sum(OpRefsOf(ops + [op])) == Sum(OpRefsOf(ops)) + OpRefs(op)
  {
    SumAppend(OpRefsOf(ops), OpRefs(op));
    assert OpRefsOf(ops + [op]) == OpRefsOf(ops) + [OpRefs(op)];
  }

  lemma OpRefsUpdate<A, R>(ops: seq<Op<A, R>>, i: nat, op: Op<A, R>)
    requires i < |ops|
    ensures Sum(OpRefsOf(ops[i := op])) == Sum(OpRefsOf(ops)) - OpRefs(ops[i]) + OpRefs(op)
    ensures Sum(OpRefsOf(ops)) >= OpRefs(ops[i])
  {
    SumUpdate(OpRefsOf(ops), i, OpRefs(op));
    assert OpRefsOf(ops[i := op]) == OpRefsOf(ops)[i := OpRefs(op)];
  }

  lemma SetSlotRefs<A, R>(ops: seq<Op<A, R>>, r: Option<nat>, slot: Slot<R>)
    ensures OpRefsOf(SetSlot(ops, r, slot)) == OpRefsOf(ops)
  {
  }

  lemma AdvanceRefs<A, R>(s: State<A, R>, o: nat, op: Op<A, R>)
    requires RefInv(s) && o < |s.ops|
    ensures RefInv(Advance(s, o, op))
    ensures OpRefs(s.ops[o]) <= s.led.box.strong
  {
    OpRefsUpdate(s.ops, o, op);
  }

  lemma RefMove<A, R>(s: State<A, R>, o: nat, pc: Pc<R>)
    requires RefInv(s) && o < |s.ops|
    ensures RefInv(MoveTo(s, o, pc))
  {
    AdvanceRefs(s, o, s.ops[o].(pc := pc, ended := s.clock));
  }

  lemma RefDeliver<A, R>(s: State<A, R>, o: nat)
    requires RefInv(s) && o < |s.ops|
    ensures RefInv(DoDeliver(s, o))
  {
    if Refuses(s, o) {
      RefMove(s, o, Done(Err(RefusalOf(s.ops[o].api))));
    } else {
      SetSlotRefs(s.ops, Victim(s, o), Lost);
      var t := Accepted(s, o);
      AdvanceRefs(t, o, t.ops[o].(entry := Some(|s.led.accepted|), ended := s.clock,
                                  pc := if HasReply(s.ops[o].api) then Waiting else Done(Ok(None))));
    }
  }

  lemma RefClient<A, R>(s: State<A, R>, l: Label<A, R>)
    requires RefInv(s) && Enabled(s, l) && !LoopLabel(l)
    ensures RefInv(ClientStep(s, l))
  {
    hide CheckResult, DoDeliver, MoveTo, Advance;
    if l.Convert? {
      HandleRefsAppend(s.handles,
                       HandleOf(l.to, Weak(l.to) || !Weak(s.handles[l.from].kind) || Upgradable(s.led.box)));
    } else if l.ContextHandle? {
      HandleRefsAppend(s.handles, HandleOf(l.to, true));
    } else if l.DropHandle? {
      HandleRefsUpdate(s.handles, l.handle, s.handles[l.handle].(live := false));
    } else if l.Begin? {
      OpRefsAppend(s.ops, Op(l.api, l.script, l.handle, Start, Unsent, None, s.clock, s.clock));
    } else if l.Check? {
      RefMove(s, l.op, CheckResult(s, l.op));
    } else if l.Deliver? {
      RefDeliver(s, l.op);
    } else if l.Receive? {
      RefMove(s, l.op, Done(Reply(s.ops[l.op])));
    } else if l.Abandon? {
      RefMove(s, l.op, Dropped);
    } else if l.LoseQueued? {
      SetSlotRefs(s.ops, ReplyOf(s.led.accepted[l.entry]), Lost);
    }
  }

  lemma RefLoop<A, R>(s: State<A, R>, l: Label<A, R>)
    requires RefInv(s) && Enabled(s, l) && LoopLabel(l)
    ensures RefInv(LoopStep(s, l))
  {
    hide LoopNext;
    if l.Complete? {
      SetSlotRefs(s.ops, CurrentReply(s), Sent(Last(s.loop).work.script.answer(s.loop.actor)));
    } else {
      SetSlotRefs(s.ops, CurrentReply(s), Lost);
    }
  }

  // ----- mailbox and turns -----

  /** Everything but the two steps that move payloads leaves the mailbox history alone. */
  ghost predicate SameHistory<A, R>(s: State<A, R>, t: State<A, R>) {
    && t.led.accepted == s.led.accepted && t.led.fates == s.led.fates && t.led.forces == s.led.forces
    && t.led.box.queue == s.led.box.queue && t.led.box.capacity == s.led.box.capacity
    && t.stamps == s.stamps
    && (s.led.box.closed ==> t.led.box.closed)
    && (t.led.box.strong == 0 ==> t.led.box.closed || (s.led.box.strong == 0 && !s.led.box.closed))
  }

  lemma QuietAdvance<A, R>(s: State<A, R>, o: nat, op: Op<A, R>)
    requires o < |s.ops|
    ensures var t := Advance(s, o, op);
            && SameHistory(s, t) && t.loop == s.loop && t.cfg == s.cfg
            && t.handles == s.handles && t.joins == s.joins
  {
    hide OpRefs;
  }

  lemma QuietClient<A, R>(s: State<A, R>, l: Label<A, R>)
    requires Enabled(s, l) && !LoopLabel(l) && !l.Deliver?
    ensures var t := ClientStep(s, l);
            SameHistory(s, t) && t.loop == s.loop && t.cfg == s.cfg
  {
    hide DoDeliver, OpRefs, HandleRefs, Advance, CheckResult;
    if l.Check? {
      QuietAdvance(s, l.op, s.ops[l.op].(pc := CheckResult(s, l.op), ended := s.clock));
    } else if l.Receive? {
      QuietAdvance(s, l.op, s.ops[l.op].(pc := Done(Reply(s.ops[l.op])), ended := s.clock));
    } else if l.Abandon? {
      QuietAdvance(s, l.op, s.ops[l.op].(pc := Dropped, ended := s.clock));
    }
  }

  /** A push is refused without a trace, or appends exactly one entry, displacing at most the oldest. */
  lemma DeliverCases<A, R>(s: State<A, R>, o: nat)
    requires MailboxInv(s) && Enabled(s, Label.Deliver(o))
    ensures var t := DoDeliver(s, o);
            && t.loop == s.loop && t.cfg == s.cfg && t.handles == s.handles && t.joins == s.joins
            && MailboxInv(t)
            && if Refuses(s, o) then SameHistory(s, t)
               else
                 && !s.led.box.closed
                 && t.led.accepted == s.led.accepted + [PayloadOf(s.ops[o], o)]
                 && t.stamps == s.stamps + [s.clock]
                 && t.led.fates == if PushOf(s.ops[o].api).ForcePush? && Full(s.led.box)
                                   then s.led.fates + [Displaced] else s.led.fates
  {
    hide Conserved, Refuses, Accepted, Advance, RefusalOf;
    if Refuses(s, o) {
      QuietAdvance(s, o, s.ops[o].(pc := Done(Err(RefusalOf(s.ops[o].api))), ended := s.clock));
      SameConserved(s, DoDeliver(s, o));
    } else {
      AcceptedLedger(s, o);
      var t := Accepted(s, o);
      QuietAdvance(t, o, t.ops[o].(entry := Some(|s.led.accepted|), ended := s.clock,
                                   pc := if HasReply(s.ops[o].api) then Waiting else Done(Ok(None))));
      SameConserved(t, DoDeliver(s, o));
    }
  }

  lemma SameConserved<A, R>(s: State<A, R>, t: State<A, R>)
    requires Conserved(s.led) && SameHistory(s, t)
    ensures Conserved(t.led)
  {
  }

  lemma AcceptedLedger<A, R>(s: State<A, R>, o: nat)
    requires MailboxInv(s) && Enabled(s, Label.Deliver(o)) && !Refuses(s, o)
    ensures var t := Accepted(s, o);
            && t.loop == s.loop && t.cfg == s.cfg && t.handles == s.handles && t.joins == s.joins
            && |t.ops| == |s.ops|
            && MailboxInv(t) && !s.led.box.closed
            && t.led.accepted == s.led.accepted + [PayloadOf(s.ops[o], o)]
            && t.stamps == s.stamps + [s.clock]
            && t.led.fates == if PushOf(s.ops[o].api).ForcePush? && Full(s.led.box)
                              then s.led.fates + [Displaced] else s.led.fates
  {
    var p := PayloadOf(s.ops[o], o);
    if PushOf(s.ops[o].api).ForcePush? {
      ForceConserves(s.led, p);
    } else {
      EnqueueConserves(s.led, p);
    }
  }

  lemma CorrespondsRevised<A, R>(
    us: seq<Turn<A, R>>, vs: seq<Turn<A, R>>, fates: seq<Fate>, accepted: seq<Payload<A, R>>)
    requires Corresponds(us, fates, accepted) && Revised(us, vs)
    ensures Corresponds(vs, fates, accepted)
  {
    assert forall p :: 0 <= p < |vs| ==> vs[p].source == us[p].source && vs[p].work == us[p].work;
  }

  lemma CorrespondsAppended<A, R>(
    us: seq<Turn<A, R>>, vs: seq<Turn<A, R>>, fates: seq<Fate>, accepted: seq<Payload<A, R>>)
    requires Corresponds(us, fates, accepted) && Appended(us, vs) && vs[|us|].source.Stream?
    ensures Corresponds(vs, fates, accepted)
  {
  }

  lemma CorrespondsAccept<A, R>(
    us: seq<Turn<A, R>>, fates: seq<Fate>, accepted: seq<Payload<A, R>>, gs: seq<Fate>, bs: seq<Payload<A, R>>)
    requires Corresponds(us, fates, accepted)
    requires accepted <= bs && |gs| <= |bs| && (gs == fates || gs == fates + [Displaced])
    ensures Corresponds(us, gs, bs)
  {
  }

  lemma CorrespondsTake<A, R>(
    us: seq<Turn<A, R>>, vs: seq<Turn<A, R>>, fates: seq<Fate>, accepted: seq<Payload<A, R>>)
    requires Corresponds(us, fates, accepted) && |fates| < |accepted| && Appended(us, vs)
    requires vs[|us|].source == Source.Mailbox(|fates|) && vs[|us|].work == WorkOf(accepted[|fates|])
    ensures Corresponds(vs, fates + [Taken(|us|)], accepted)
  {
  }

  lemma MailboxLoop<A, R>(s: State<A, R>, l: Label<A, R>)
    requires MailboxInv(s) && Corresponds(s.loop.turns, s.led.fates, s.led.accepted) && ExitInv(s.cfg, s.loop)
    requires Enabled(s, l) && LoopLabel(l)
    ensures var t := LoopStep(s, l); MailboxInv(t) && Corresponds(t.loop.turns, t.led.fates, t.led.accepted)
  {
    hide LoopSlots, Corresponds, TakePayload;
    var t := LoopStep(s, l);
    if l.Recv? {
      DequeueConserves(s.led, |s.loop.turns|);
      RecvTurn(s.cfg, s.loop, s.led.box.queue[0], |s.led.fates|);
      CorrespondsTake(s.loop.turns, t.loop.turns, s.led.fates, s.led.accepted);
    } else if Appends(l) {
      StreamTurn(s.cfg, s.loop, s.led, l);
      CorrespondsAppended(s.loop.turns, t.loop.turns, s.led.fates, s.led.accepted);
    } else if Revises(l) || (l.Panic? && Working(s.loop)) {
      hide LoopEnabled, Conserved;
      RxKept(s.cfg, s.loop, s.led, l);
      ReviseTurns(s.cfg, s.loop, s.led, l);
      hide LoopNext;
      CorrespondsRevised(s.loop.turns, t.loop.turns, s.led.fates, s.led.accepted);
    } else {
      hide LoopEnabled, Conserved;
      RxKept(s.cfg, s.loop, s.led, l);
      KeepTurns(s.cfg, s.loop, s.led, l);
      hide LoopNext;
    }
  }

  lemma RxKept<A, R>(cfg: Config<A>, lp: Loop<A, R>, led: Ledger<Payload<A, R>>, l: Label<A, R>)
    requires LoopLabel(l) && LoopEnabled(cfg, lp, led.box, l)
    ensures LoopNext(cfg, lp, led, l).rx == (lp.rx && !l.DropRx?)
  {
    hide RefreshStage, TakePayload;
    if l.Recv? {
      RecvTurn(cfg, lp, led.box.queue[0], |led.fates|);
    }
  }

  lemma DrainStep<A, R>(s: State<A, R>, l: Label<A, R>)
    requires MailboxInv(s) && DrainInv(s) && ExitInv(s.cfg, s.loop) && Enabled(s, l)
    ensures DrainInv(Step(s, l))
  {
    hide ClientStep, LoopNext, Advance, LoopSlots;
    if LoopLabel(l) {
      ExitReason(s.cfg, s.loop, s.led, l);
    } else if l.Deliver? {
      StepDeliver(s, l.op);
      DeliverCases(s, l.op);
    } else {
      QuietClient(s, l);
    }
  }

  /** Only the end of the channel gives that exit reason, and the loop then never dequeues again. */
  lemma ExitReason<A, R>(cfg: Config<A>, lp: Loop<A, R>, led: Ledger<Payload<A, R>>, l: Label<A, R>)
    requires LoopLabel(l) && LoopEnabled(cfg, lp, led.box, l) && ExitInv(cfg, lp)
    ensures LoopNext(cfg, lp, led, l).exit.ByChannelEnd? ==> l.ChannelEnd? || (lp.exit.ByChannelEnd? && !l.Recv?)
  {
    hide RefreshStage;
  }

  lemma EndedIsFinal<A, R>(s: State<A, R>, l: Label<A, R>)
    requires Enabled(s, l) && LoopLabel(l)
    ensures !s.loop.phase.Ended?
  {
  }

  lemma JoinStep<A, R>(s: State<A, R>, l: Label<A, R>)
    requires JoinInv(s) && Enabled(s, l)
    ensures JoinInv(Step(s, l))
  {
    hide LoopNext, LoopSlots, LoopLedger, DoDeliver, CheckResult, OpRefs;
    if LoopLabel(l) {
      EndedIsFinal(s, l);
      hide Enabled;
    } else {
      hide LoopStep;
      if l.Deliver? {
        DeliverJoins(s, l.op);
      }
    }
  }

  lemma DeliverJoins<A, R>(s: State<A, R>, o: nat)
    requires o < |s.ops|
    ensures DoDeliver(s, o).joins == s.joins && DoDeliver(s, o).loop == s.loop
  {
    hide OpRefs;
  }

  // ----- operations -----

  lemma OpsMove<A, R>(s: State<A, R>, o: nat, pc: Pc<R>)
    requires OpInv(s) && o < |s.ops|
    requires GoodPc(s.ops[o].(pc := pc, ended := s.clock), s.loop.shots)
    ensures OpInv(MoveTo(s, o, pc).(clock := s.clock + 1))
  {
    hide OpRefs, GoodPc, GoodSlot;
    var op := s.ops[o].(pc := pc, ended := s.clock);
    assert GoodEntry(s.ops[o], o, s.led.accepted, s.stamps, s.clock);
    assert GoodSlot(op, s.led.fates, s.loop.turns, s.loop.rx) by {
      assert GoodSlot(s.ops[o], s.led.fates, s.loop.turns, s.loop.rx);
      SlotIgnoresPc(s.ops[o], op, s.led.fates, s.loop.turns, s.loop.rx);
    }
  }

  lemma SlotIgnoresPc<A, R>(op: Op<A, R>, oq: Op<A, R>, fates: seq<Fate>, turns: seq<Turn<A, R>>, rx: bool)
    requires oq == op.(pc := oq.pc, ended := oq.ended)
    ensures GoodSlot(op, fates, turns, rx) == GoodSlot(oq, fates, turns, rx)
  {
  }

  lemma OpsBegin<A, R>(s: State<A, R>, api: Api, script: Script<A, R>, h: nat)
    requires OpInv(s)
    ensures OpInv(DoBegin(s, api, script, h).(clock := s.clock + 1))
  {
    hide OpRefs;
  }

  /** Losing a queued payload's reply sender touches only the operation that sent it. */
  lemma OpsLose<A, R>(s: State<A, R>, e: nat)
    requires OpInv(s) && Enabled(s, LoseQueued(e))
    ensures OpInv(s.(ops := SetSlot(s.ops, ReplyOf(s.led.accepted[e]), Lost), clock := s.clock + 1))
  {
    var r := ReplyOf(s.led.accepted[e]);
    if r.Some? {
      var o := r.value;
      assert s.ops[o].entry == Some(e);
      assert GoodSlot(s.ops[o], s.led.fates, s.loop.turns, s.loop.rx);
      assert GoodEntry(s.ops[o], o, s.led.accepted, s.stamps, s.clock);
      assert GoodPc(s.ops[o], s.loop.shots);
    }
  }

  lemma OpsRefuse<A, R>(s: State<A, R>, o: nat)
    requires OpInv(s) && Enabled(s, Label.Deliver(o)) && Refuses(s, o)
    ensures OpInv(DoDeliver(s, o).(clock := s.clock + 1))
  {
    assert GoodPc(s.ops[o], s.loop.shots);
    OpsMove(s, o, Done(Err(RefusalOf(s.ops[o].api))));
  }

  /** Displacing the head of the queue loses exactly its sender's reply. */
  lemma OpsDisplace<A, R>(s: State<A, R>, o: nat)
    requires OpInv(s) && MailboxInv(s) && o < |s.ops| && s.ops[o].entry.None?
    requires PushOf(s.ops[o].api).ForcePush? && Full(s.led.box)
    ensures AllSlots(SetSlot(s.ops, Victim(s, o), Lost), s.led.fates + [Displaced], s.loop.turns, s.loop.rx)
    ensures AllPcs(SetSlot(s.ops, Victim(s, o), Lost), s.loop.shots)
    ensures |SetSlot(s.ops, Victim(s, o), Lost)| == |s.ops|
    ensures SetSlot(s.ops, Victim(s, o), Lost)[o] == s.ops[o]
  {
    var head := |s.led.fates|;
    assert s.led.box.queue[0] == s.led.accepted[head];
    var r := Victim(s, o);
    var ops := SetSlot(s.ops, r, Lost);
    forall q | 0 <= q < |ops|
      ensures GoodSlot(ops[q], s.led.fates + [Displaced], s.loop.turns, s.loop.rx) && GoodPc(ops[q], s.loop.shots)
    {
      assert GoodSlot(s.ops[q], s.led.fates, s.loop.turns, s.loop.rx);
      assert GoodPc(s.ops[q], s.loop.shots);
      assert GoodEntry(s.ops[q], q, s.led.accepted, s.stamps, s.clock);
    }
  }

  /** The accepting operation after its push. */
  ghost function Pushed<A, R>(s: State<A, R>, o: nat): Op<A, R>
    requires o < |s.ops|
  {
    s.ops[o].(entry := Some(|s.led.accepted|), ended := s.clock,
              pc := if HasReply(s.ops[o].api) then Waiting else Done(Ok(None)))
  }

  lemma AcceptShape<A, R>(s: State<A, R>, o: nat)
    requires OpInv(s) && MailboxInv(s) && Enabled(s, Label.Deliver(o)) && !Refuses(s, o)
    ensures var mid := SetSlot(s.ops, Victim(s, o), Lost);
            && |mid| == |s.ops| && mid[o] == s.ops[o]
            && DoDeliver(s, o).ops == mid[o := Pushed(s, o)]
            && AllSlots(mid, DoDeliver(s, o).led.fates, s.loop.turns, s.loop.rx)
            && AllPcs(mid, s.loop.shots)
            && forall q :: 0 <= q < |mid| ==> mid[q] == s.ops[q].(slot := mid[q].slot)
  {
    PcAt(s, o);
    DeliverCases(s, o);
    hide OpInv, MailboxInv;
    if PushOf(s.ops[o].api).ForcePush? && Full(s.led.box) {
      OpsDisplace(s, o);
    } else {
      assert OpInv(s);
      OpsParts(s);
    }
  }

  lemma OpsParts<A, R>(s: State<A, R>)
    requires OpInv(s)
    ensures AllSlots(s.ops, s.led.fates, s.loop.turns, s.loop.rx) && AllPcs(s.ops, s.loop.shots)
  {
  }

  lemma UpdateGood<A, R>(
    ops: seq<Op<A, R>>, o: nat, op: Op<A, R>, shots: nat, fates: seq<Fate>, turns: seq<Turn<A, R>>, rx: bool)
    requires AllPcs(ops, shots) && AllSlots(ops, fates, turns, rx) && o < |ops|
    requires GoodPc(op, shots) && GoodSlot(op, fates, turns, rx)
    ensures AllPcs(ops[o := op], shots) && AllSlots(ops[o := op], fates, turns, rx)
  {
    hide GoodPc, GoodSlot;
  }

  lemma PushedGood<A, R>(s: State<A, R>, o: nat, fates: seq<Fate>)
    requires OpInv(s) && o < |s.ops| && s.ops[o].pc.Cleared?
    requires |fates| <= |s.led.accepted|
    ensures GoodPc(Pushed(s, o), s.loop.shots)
    ensures GoodSlot(Pushed(s, o), fates, s.loop.turns, s.loop.rx)
  {
    assert GoodSlot(s.ops[o], s.led.fates, s.loop.turns, s.loop.rx);
    assert GoodPc(s.ops[o], s.loop.shots);
  }

  lemma OpsAccept<A, R>(s: State<A, R>, o: nat)
    requires OpInv(s) && MailboxInv(s) && Enabled(s, Label.Deliver(o)) && !Refuses(s, o)
    ensures OpInv(DoDeliver(s, o).(clock := s.clock + 1))
  {
    var t := DoDeliver(s, o).(clock := s.clock + 1);
    var mid := SetSlot(s.ops, Victim(s, o), Lost);
    AcceptShape(s, o);
    DeliverCases(s, o);
    PcAt(s, o);
    hide DoDeliver, Refuses, Victim, SetSlot, Full, GoodPc, GoodSlot, AllPcs, AllSlots, Conserved;
    PushedGood(s, o, t.led.fates);
    UpdateGood(mid, o, Pushed(s, o), s.loop.shots, t.led.fates, s.loop.turns, s.loop.rx);
    EntriesAccept(s, o, mid, Pushed(s, o));
    LinksAccept(s, o, t.ops);
  }

  lemma EntriesAccept<A, R>(s: State<A, R>, o: nat, mid: seq<Op<A, R>>, done: Op<A, R>)
    requires AllEntries(s.ops, s.led.accepted, s.stamps, s.clock) && o < |s.ops| == |mid|
    requires |s.stamps| == |s.led.accepted|
    requires forall q :: 0 <= q < |mid| ==> mid[q] == s.ops[q].(slot := mid[q].slot)
    requires done == s.ops[o].(entry := Some(|s.led.accepted|), ended := s.clock, pc := done.pc, slot := done.slot)
    ensures AllEntries(mid[o := done], s.led.accepted + [PayloadOf(s.ops[o], o)], s.stamps + [s.clock], s.clock + 1)
  {
    var ops := mid[o := done];
    forall q | 0 <= q < |ops|
      ensures GoodEntry(ops[q], q, s.led.accepted + [PayloadOf(s.ops[o], o)], s.stamps + [s.clock], s.clock + 1)
    {
      assert GoodEntry(s.ops[q], q, s.led.accepted, s.stamps, s.clock);
    }
  }

  lemma LinksAccept<A, R>(s: State<A, R>, o: nat, ops: seq<Op<A, R>>)
    requires ReplyLinks(s.ops, s.led.accepted) && o < |s.ops| == |ops|
    requires ops[o].entry == Some(|s.led.accepted|) && s.ops[o].entry.None?
    requires forall q :: 0 <= q < |ops| && q != o ==> ops[q].entry == s.ops[q].entry
    ensures ReplyLinks(ops, s.led.accepted + [PayloadOf(s.ops[o], o)])
  {
  }

  lemma PcAt<A, R>(s: State<A, R>, o: nat)
    requires OpInv(s) && o < |s.ops|
    ensures GoodPc(s.ops[o], s.loop.shots)
  {
  }

  lemma OpsClient<A, R>(s: State<A, R>, l: Label<A, R>)
    requires OpInv(s) && MailboxInv(s) && Enabled(s, l) && !LoopLabel(l)
    ensures OpInv(Step(s, l))
  {
    hide OpInv, MailboxInv, LoopStep, DoBegin, Refuses, DoDeliver, MoveTo, CheckResult, HandleRefs, Upgradable;
    if l.Begin? {
      OpsBegin(s, l.api, l.script, l.handle);
    } else if l.Check? {
      PcAt(s, l.op);
      CheckGood(s, l.op);
      OpsMove(s, l.op, CheckResult(s, l.op));
    } else if l.Deliver? {
      if Refuses(s, l.op) {
        OpsRefuse(s, l.op);
      } else {
        OpsAccept(s, l.op);
      }
    } else if l.Receive? {
      PcAt(s, l.op);
      OpsMove(s, l.op, Done(Reply(s.ops[l.op])));
    } else if l.Abandon? {
      PcAt(s, l.op);
      OpsMove(s, l.op, Dropped);
    } else if l.LoseQueued? {
      OpsLose(s, l.entry);
    } else {
      OpsTick(s, Step(s, l));
    }
  }

  lemma CheckGood<A, R>(s: State<A, R>, o: nat)
    requires Enabled(s, Label.Check(o)) && GoodPc(s.ops[o], s.loop.shots)
    ensures GoodPc(s.ops[o].(pc := CheckResult(s, o), ended := s.clock), s.loop.shots)
  {
  }

  lemma OpsTick<A, R>(s: State<A, R>, t: State<A, R>)
    requires OpInv(s) && t.ops == s.ops && t.led.accepted == s.led.accepted && t.led.fates == s.led.fates
    requires t.stamps == s.stamps && t.loop == s.loop && t.clock == s.clock + 1
    ensures OpInv(t)
  {
    hide GoodPc, GoodSlot;
  }

  /** A freshly taken payload has not answered yet. */
  lemma SlotsTaken<A, R>(s: State<A, R>, vs: seq<Turn<A, R>>)
    requires OpInv(s) && |s.led.fates| < |s.led.accepted| && s.loop.rx
    requires Appended(s.loop.turns, vs)
    requires s.led.accepted[|s.led.fates|].Task? ==> vs[|s.loop.turns|].outcome.Pending?
    ensures AllSlots(s.ops, s.led.fates + [Taken(|s.loop.turns|)], vs, true)
  {
    forall q | 0 <= q < |s.ops|
      ensures GoodSlot(s.ops[q], s.led.fates + [Taken(|s.loop.turns|)], vs, true)
    {
      assert GoodSlot(s.ops[q], s.led.fates, s.loop.turns, s.loop.rx);
      assert GoodEntry(s.ops[q], q, s.led.accepted, s.stamps, s.clock);
    }
  }

  /** The operation whose payload the turn in progress handles is the one its reply names. */
  lemma CurrentOwner<A, R>(s: State<A, R>, q: nat)
    requires OpInv(s) && Corresponds(s.loop.turns, s.led.fates, s.led.accepted) && s.loop.turns != []
    requires q < |s.ops| && s.ops[q].entry.Some? && HasReply(s.ops[q].api)
    ensures s.ops[q].entry.value < |s.led.fates| && s.led.fates[s.ops[q].entry.value] == Taken(|s.loop.turns| - 1)
            <==> CurrentReply(s) == Some(q)
    ensures CurrentReply(s) == Some(q) ==> Last(s.loop).work.Run?
  {
    assert GoodEntry(s.ops[q], q, s.led.accepted, s.stamps, s.clock);
    assert ReplyOf(s.led.accepted[s.ops[q].entry.value]) == Some(q);
  }

  /** Ending or advancing the turn in progress keeps every reply slot in step with its turn. */
  lemma SlotsRevised<A, R>(s: State<A, R>, vs: seq<Turn<A, R>>, slot: Slot<R>, answers: bool)
    requires OpInv(s) && Corresponds(s.loop.turns, s.led.fates, s.led.accepted) && Revised(s.loop.turns, vs)
    requires Last(s.loop).work.Run? ==>
               if answers then SlotMatches(slot, vs[|vs| - 1].outcome) else vs[|vs| - 1].outcome == Last(s.loop).outcome
    ensures AllSlots(if answers then SetSlot(s.ops, CurrentReply(s), slot) else s.ops, s.led.fates, vs, s.loop.rx)
  {
    var ops := if answers then SetSlot(s.ops, CurrentReply(s), slot) else s.ops;
    if CurrentReply(s).Some? {
      ReplyOwner(s);
    }
    forall q | 0 <= q < |ops|
      ensures GoodSlot(ops[q], s.led.fates, vs, s.loop.rx)
    {
      assert GoodSlot(s.ops[q], s.led.fates, s.loop.turns, s.loop.rx);
      if s.ops[q].entry.Some? && HasReply(s.ops[q].api) {
        CurrentOwner(s, q);
      }
    }
  }

  lemma ReplyOwner<A, R>(s: State<A, R>)
    requires OpInv(s) && CurrentReply(s).Some?
    ensures var q := CurrentReply(s).value;
            q < |s.ops| && s.ops[q].entry.Some? && HasReply(s.ops[q].api)
  {
    var q := CurrentReply(s).value;
    assert ReplyOf(s.led.accepted[Last(s.loop).source.entry]) == Some(q);
    assert GoodEntry(s.ops[q], q, s.led.accepted, s.stamps, s.clock);
  }

  lemma SlotsAppended<A, R>(s: State<A, R>, vs: seq<Turn<A, R>>)
    requires OpInv(s) && Corresponds(s.loop.turns, s.led.fates, s.led.accepted) && Appended(s.loop.turns, vs)
    ensures AllSlots(s.ops, s.led.fates, vs, s.loop.rx)
  {
    forall q | 0 <= q < |s.ops|
      ensures GoodSlot(s.ops[q], s.led.fates, vs, s.loop.rx)
    {
      assert GoodSlot(s.ops[q], s.led.fates, s.loop.turns, s.loop.rx);
    }
  }

  lemma SlotsClosed<A, R>(ops: seq<Op<A, R>>, fates: seq<Fate>, turns: seq<Turn<A, R>>, rx: bool)
    requires AllSlots(ops, fates, turns, rx)
    ensures AllSlots(ops, fates, turns, false)
  {
    forall q | 0 <= q < |ops|
      ensures GoodSlot(ops[q], fates, turns, false)
    {
      assert GoodSlot(ops[q], fates, turns, rx);
    }
  }

  /** The outcome the loop gives the turn it ends, and the slot value that goes with it. */
  lemma TurnOutcome<A, R>(s: State<A, R>, l: Label<A, R>)
    requires LoopLabel(l) && LoopEnabled(s.cfg, s.loop, s.led.box, l) && Enabled(s, l) && LoopLabel(l)
    requires Revises(l) || (l.Panic? && Working(s.loop))
    requires GoodTurn(s.cfg, s.loop.turns, |s.loop.turns| - 1, true)
    ensures Working(s.loop)
    ensures var out := Last(LoopNext(s.cfg, s.loop, s.led, l)).outcome;
            if l.Complete? then out == Completed(Some(Last(s.loop).work.script.answer(s.loop.actor)))
            else if l.Timeout? then out.Cut?
            else if l.Panic? then out.Broken?
            else Last(s.loop).work.Run? ==> out == Last(s.loop).outcome
  {
    hide LoopNext, Replay;
    ReviseTurns(s.cfg, s.loop, s.led, l);
    RevisionOutcome(s.cfg, s.loop, s.led, l);
  }

  lemma SlotsLoop<A, R>(s: State<A, R>, l: Label<A, R>)
    requires OpInv(s) && MailboxInv(s) && Corresponds(s.loop.turns, s.led.fates, s.led.accepted)
    requires ExitInv(s.cfg, s.loop) && OutcomeInv(s.cfg, s.loop) && Enabled(s, l) && LoopLabel(l)
    ensures AllSlots(LoopSlots(s, l), LoopLedger(s, l).fates, LoopNext(s.cfg, s.loop, s.led, l).turns,
                     LoopNext(s.cfg, s.loop, s.led, l).rx)
  {
    hide OpInv, AllSlots, AllGood, Conserved, Corresponds, LoopNext;
    var np := LoopNext(s.cfg, s.loop, s.led, l);
    RxKept(s.cfg, s.loop, s.led, l);
    OpsParts(s);
    if l.Recv? {
      FreshTurn(s);
      SlotsTaken(s, np.turns);
    } else if Appends(l) {
      AppendTurns(s.cfg, s.loop, s.led, l);
      hide LoopEnabled;
      SlotsAppended(s, np.turns);
    } else if Revises(l) || (l.Panic? && Working(s.loop)) {
      hide CurrentReply, SetSlot;
      LastGood(s.cfg, s.loop);
      TurnOutcome(s, l);
      ReviseTurns(s.cfg, s.loop, s.led, l);
      if l.Complete? {
        SlotsRevised(s, np.turns, Sent(Last(s.loop).work.script.answer(s.loop.actor)), true);
      } else if l.Timeout? || l.Panic? {
        SlotsRevised(s, np.turns, Lost, true);
      } else {
        SlotsRevised(s, np.turns, Lost, false);
      }
    } else {
      KeepTurns(s.cfg, s.loop, s.led, l);
      SlotsClosed(s.ops, s.led.fates, s.loop.turns, s.loop.rx);
    }
  }

  lemma FreshTurn<A, R>(s: State<A, R>)
    requires MailboxInv(s) && ExitInv(s.cfg, s.loop) && LoopEnabled(s.cfg, s.loop, s.led.box, Recv)
    ensures var np := LoopNext(s.cfg, s.loop, s.led, Label<A, R>.Recv);
            && |s.led.fates| < |s.led.accepted| && s.loop.rx && np.rx
            && Appended(s.loop.turns, np.turns)
            && (s.led.accepted[|s.led.fates|].Task? ==> np.turns[|s.loop.turns|].outcome.Pending?)
  {
    RecvTurn(s.cfg, s.loop, s.led.box.queue[0], |s.led.fates|);
    assert s.led.box.queue[0] == s.led.accepted[|s.led.fates|];
  }

  /** No operation that already returned is waiting on the turn in progress. */
  lemma PcsAnswered<A, R>(s: State<A, R>, slot: Slot<R>)
    requires OpInv(s) && Corresponds(s.loop.turns, s.led.fates, s.led.accepted)
    requires s.loop.turns != [] && Last(s.loop).outcome.Pending?
    ensures AllPcs(SetSlot(s.ops, CurrentReply(s), slot), s.loop.shots)
  {
    var ops := SetSlot(s.ops, CurrentReply(s), slot);
    if CurrentReply(s).Some? {
      ReplyOwner(s);
    }
    forall q | 0 <= q < |ops|
      ensures GoodPc(ops[q], s.loop.shots)
    {
      assert GoodPc(s.ops[q], s.loop.shots);
      assert GoodSlot(s.ops[q], s.led.fates, s.loop.turns, s.loop.rx);
      if s.ops[q].entry.Some? && HasReply(s.ops[q].api) {
        CurrentOwner(s, q);
      }
    }
  }

  lemma PcsShot<A, R>(ops: seq<Op<A, R>>, shots: nat, more: nat)
    requires AllPcs(ops, shots) && shots <= more
    ensures AllPcs(ops, more)
  {
    forall q | 0 <= q < |ops|
      ensures GoodPc(ops[q], more)
    {
      assert GoodPc(ops[q], shots);
    }
  }

  /** Slots do not matter to entries and links. */
  lemma EntriesSlots<A, R>(s: State<A, R>, r: Option<nat>, slot: Slot<R>)
    requires OpInv(s)
    ensures var ops := SetSlot(s.ops, r, slot);
            && AllEntries(ops, s.led.accepted, s.stamps, s.clock + 1)
            && AllEntries(s.ops, s.led.accepted, s.stamps, s.clock + 1)
            && ReplyLinks(ops, s.led.accepted) && ReplyLinks(s.ops, s.led.accepted)
  {
    var ops := SetSlot(s.ops, r, slot);
    forall q | 0 <= q < |ops|
      ensures GoodEntry(ops[q], q, s.led.accepted, s.stamps, s.clock + 1)
      ensures GoodEntry(s.ops[q], q, s.led.accepted, s.stamps, s.clock + 1)
    {
      assert GoodEntry(s.ops[q], q, s.led.accepted, s.stamps, s.clock);
    }
  }

  lemma ShotsGrow<A, R>(cfg: Config<A>, lp: Loop<A, R>, led: Ledger<Payload<A, R>>, l: Label<A, R>)
    requires LoopLabel(l) && LoopEnabled(cfg, lp, led.box, l)
    ensures LoopNext(cfg, lp, led, l).shots == lp.shots + if l.Fire? then 1 else 0
  {
    hide RefreshStage, TakePayload;
    if l.Recv? {
      RecvTurn(cfg, lp, led.box.queue[0], |led.fates|);
    }
  }

  lemma OpsLoop<A, R>(s: State<A, R>, l: Label<A, R>)
    requires OpInv(s) && MailboxInv(s) && Corresponds(s.loop.turns, s.led.fates, s.led.accepted)
    requires ExitInv(s.cfg, s.loop) && OutcomeInv(s.cfg, s.loop) && Enabled(s, l) && LoopLabel(l)
    ensures OpInv(Step(s, l))
  {
    SlotsLoop(s, l);
    ShotsGrow(s.cfg, s.loop, s.led, l);
    OpsParts(s);
    PcsShot(s.ops, s.loop.shots, LoopNext(s.cfg, s.loop, s.led, l).shots);
    hide AllSlots, AllPcs, AllEntries, ReplyLinks, LoopNext, ClientStep, Conserved, Corresponds;
    assert Working(s.loop) ==> Last(s.loop).outcome.Pending? by {
      if Working(s.loop) {
        LastGood(s.cfg, s.loop);
      }
    }
    if l.Complete? {
      var slot := Sent(Last(s.loop).work.script.answer(s.loop.actor));
      PcsAnswered(s, slot);
      EntriesSlots(s, CurrentReply(s), slot);
    } else if l.Timeout? || (l.Panic? && Working(s.loop)) {
      PcsAnswered(s, Lost);
      EntriesSlots(s, CurrentReply(s), Lost);
    } else {
      EntriesSlots(s, None, Lost);
    }
  }

  // ----- every step -----

  lemma InvStep<A, R>(s: State<A, R>, l: Label<A, R>)
    requires Inv(s) && Enabled(s, l)
    ensures Inv(Step(s, l))
  {
    hide OpInv, MailboxInv, RefInv, JoinInv, DrainInv, Corresponds, LoopNext, DoDeliver, Enabled;
    hide StreamInv, OutcomeInv, ActorInv, ModeInv, ExitInv, TraceInv;
    DrainStep(s, l);
    JoinStep(s, l);
    if LoopLabel(l) {
      LoopLabelEnabled(s, l);
      OpsLoop(s, l);
      LoopInvStep(s.cfg, s.loop, s.led, l);
      MailboxLoop(s, l);
      RefLoop(s, l);
    } else {
      OpsClient(s, l);
      RefClient(s, l);
      MailboxClient(s, l);
    }
    Tick(if LoopLabel(l) then LoopStep(s, l) else ClientStep(s, l), s.clock + 1);
  }

  lemma LoopLabelEnabled<A, R>(s: State<A, R>, l: Label<A, R>)
    requires Enabled(s, l) && LoopLabel(l)
    ensures LoopEnabled(s.cfg, s.loop, s.led.box, l)
  {
  }

  /** Only the operation invariants mention the clock. */
  lemma Tick<A, R>(s: State<A, R>, clock: nat)
    requires MailboxInv(s) && RefInv(s)
    ensures MailboxInv(s.(clock := clock)) && RefInv(s.(clock := clock))
  {
  }

  lemma MailboxClient<A, R>(s: State<A, R>, l: Label<A, R>)
    requires MailboxInv(s) && Corresponds(s.loop.turns, s.led.fates, s.led.accepted)
    requires Enabled(s, l) && !LoopLabel(l)
    ensures var t := ClientStep(s, l);
            && MailboxInv(t) && Corresponds(t.loop.turns, t.led.fates, t.led.accepted)
            && t.loop == s.loop && t.cfg == s.cfg
  {
    hide Corresponds, Refuses, OpRefs;
    if l.Deliver? {
      DeliverCases(s, l.op);
      var t := ClientStep(s, l);
      CorrespondsAccept(s.loop.turns, s.led.fates, s.led.accepted, t.led.fates, t.led.accepted);
    } else {
      QuietClient(s, l);
    }
  }

  lemma LoopInvStep<A, R>(cfg: Config<A>, lp: Loop<A, R>, led: Ledger<Payload<A, R>>, l: Label<A, R>)
    requires LoopInv(cfg, lp) && LoopLabel(l) && LoopEnabled(cfg, lp, led.box, l)
    ensures LoopInv(cfg, LoopNext(cfg, lp, led, l))
  {
    StreamStep(cfg, lp, led, l);
    OutcomeStep(cfg, lp, led, l);
    ActorStep(cfg, lp, led, l);
    ModeStep(cfg, lp, led, l);
    TraceStep(cfg, lp, led, l);
    ExitStep(cfg, lp, led, l);
  }
}

/**
 * Where the code does less than its names suggest, and exactly when: a Stop that returned `Ok` can be
 * displaced if and only if the mailbox is bounded, and `AlreadyStopped` is wrong exactly for a full mailbox.
 */
module ProtocolLimits {
  import opened Base
  import opened Mailbox
  import opened Behaviour
  import opened Protocol
  import opened LoopInvariants
  import opened ProtocolInvariants
  import opened ClientInvariants
  import opened ProtocolTheorems
  import opened ProtocolProgress
  import opened ProtocolMeasure

  /**
   * A push is refused exactly when the receiver is gone, so the loop is on its way out, or when a
   * `try_send` entry point (`call`, `ping`, `try_send`) meets a full mailbox.
   */
  lemma RefusalExact<A, R>(cfg: Config<A>, ls: seq<Label<A, R>>, s: State<A, R>, o: nat)
    requires Reaches(cfg, ls, s) && o < |s.ops| && s.ops[o].pc.Cleared?
    ensures Refuses(s, o) <==>
              !s.loop.rx || (s.ops[o].api in {AddrCall, AddrTrySend, SenderTrySend} && Full(s.led.box))
    ensures !s.loop.rx ==> s.loop.phase in {Unwinding, Ended}
  {
    hide FullInv;
    Reachable(cfg, ls);
    ClearedOpen(s, o);
    ReferencesExact(cfg, ls, s);
  }

  /** A `call` (or `ping`, `try_send`) that meets a full mailbox is refused and displaces nothing. */
  lemma CallOnFull<A, R>(cfg: Config<A>, ls: seq<Label<A, R>>, s: State<A, R>, o: nat)
    requires Reaches(cfg, ls, s) && o < |s.ops| && s.ops[o].pc.Cleared? && Full(s.led.box)
    requires s.ops[o].api in {AddrCall, AddrTrySend, SenderTrySend}
    ensures Enabled(s, Label<A, R>.Deliver(o))
    ensures var t := Step(s, Label<A, R>.Deliver(o));
            && |t.ops| == |s.ops|
            && t.ops[o].pc == Done(Err(if s.ops[o].api.SenderTrySend? then ChannelClosed else AlreadyStopped))
            && t.led.accepted == s.led.accepted && t.led.fates == s.led.fates && t.led.box.queue == s.led.box.queue
  {
    hide Step, DoDeliver;
    RefusedFull(s, o);
    StepDeliver(s, o);
  }

  /**
   * And the entry points that force their payload in are not refused for want of room: the oldest entry of
   * the full mailbox is displaced instead.
   */
  lemma ForceOnFull<A, R>(cfg: Config<A>, ls: seq<Label<A, R>>, s: State<A, R>, o: nat)
    requires Reaches(cfg, ls, s) && o < |s.ops| && s.ops[o].pc.Cleared? && Full(s.led.box) && !s.led.box.closed
    requires s.ops[o].api in {AddrStop, AddrRestart, SenderForceSend, CtxStop, CtxRestart}
    ensures Enabled(s, Label<A, R>.Deliver(o))
    ensures var t := Step(s, Label<A, R>.Deliver(o));
            && |t.ops| == |s.ops| && t.ops[o].pc == Done(Ok(None))
            && t.led.fates == s.led.fates + [Displaced] && |t.led.accepted| == |s.led.accepted| + 1
  {
    hide FullInv, DoDeliver, Step;
    Reachable(cfg, ls);
    FullNonempty(s);
    hide Step, DoDeliver;
    ForcedFull(s, o);
    StepDeliver(s, o);
  }

  lemma RefusedFull<A, R>(s: State<A, R>, o: nat)
    requires o < |s.ops| && Full(s.led.box) && s.ops[o].api in {AddrCall, AddrTrySend, SenderTrySend}
    ensures var t := DoDeliver(s, o);
            && |t.ops| == |s.ops|
            && t.ops[o].pc == Done(Err(if s.ops[o].api.SenderTrySend? then ChannelClosed else AlreadyStopped))
            && t.led.accepted == s.led.accepted && t.led.fates == s.led.fates && t.led.box.queue == s.led.box.queue
  {
    hide OpRefs;
  }

  lemma ForcedFull<A, R>(s: State<A, R>, o: nat)
    requires o < |s.ops| && Full(s.led.box) && !s.led.box.closed && s.led.box.queue != []
    requires s.ops[o].api in {AddrStop, AddrRestart, SenderForceSend, CtxStop, CtxRestart}
    ensures var t := DoDeliver(s, o);
            && |t.ops| == |s.ops| && t.ops[o].pc == Done(Ok(None))
            && t.led.fates == s.led.fates + [Displaced] && |t.led.accepted| == |s.led.accepted| + 1
  {
    hide OpRefs;
  }

  lemma FullNonempty<A, R>(s: State<A, R>)
    requires FullInv(s)
    ensures Full(s.led.box) ==> s.led.box.queue != []
  {
    assert MailboxInv(s);
    hide FullInv;
  }

  /** `send` alone waits: it cannot push while the mailbox is full and open. */
  lemma SendWaits<A, R>(s: State<A, R>, o: nat)
    requires o < |s.ops| && s.ops[o].pc.Cleared?
    ensures Enabled(s, Label<A, R>.Deliver(o)) <==>
              !(s.ops[o].api in {AddrSend, SenderSend, CallerCall} && Full(s.led.box) && !s.led.box.closed)
  {
  }

  lemma ClearedOpen<A, R>(s: State<A, R>, o: nat)
    requires FullInv(s) && o < |s.ops| && s.ops[o].pc.Cleared?
    ensures s.led.box.strong > 0
    ensures !s.loop.rx ==> s.loop.phase in {Unwinding, Ended}
  {
    ClearedHolds(s, o);
  }

  // ----- rounds of one client against a loop that is not being polled -----

  /** Nothing but one client with one address has acted; the loop waits to be polled first. */
  ghost predicate Parked<A, R>(s: State<A, R>) {
    && s.loop.flag && s.loop.phase.Spawned?
    && s.handles == [HandleOf(KAddr, true)]
    && !s.led.box.closed && (Full(s.led.box) ==> s.led.box.queue != [])
  }

  predicate Immediate(api: Api) { api.AddrStop? || api.AddrRestart? || api.AddrTrySend? }

  function Round<A, R>(api: Api, script: Script<A, R>, n: nat): seq<Label<A, R>> {
    [Begin(api, script, 0), Check(n), Label.Deliver(n)]
  }

  lemma RunThree<A, R>(s: State<A, R>, a: Label<A, R>, b: Label<A, R>, c: Label<A, R>)
    requires Enabled(s, a) && Enabled(Step(s, a), b) && Enabled(Step(Step(s, a), b), c)
    ensures IsRun(s, [a, b, c]) && After(s, [a, b, c]) == Step(Step(Step(s, a), b), c)
  {
    hide Step, Enabled;
    var t := Step(s, a);
    var u := Step(t, b);
    assert [a, b, c][1..] == [b, c];
    assert [b, c][1..] == [c];
    assert [c][1..] == [];
    assert IsRun(Step(u, c), []);
    assert IsRun(u, [c]) && After(u, [c]) == Step(u, c);
    assert IsRun(t, [b, c]);
  }

  lemma CheckedRound<A, R>(s: State<A, R>, api: Api, script: Script<A, R>)
    requires Parked(s) && Immediate(api)
    ensures var n := |s.ops|;
            var t := DoBegin(s, api, script, 0).(clock := s.clock + 1);
            && Enabled(s, Begin(api, script, 0)) && Step(s, Begin(api, script, 0)) == t
            && Enabled(t, Check(n))
            && var u := Step(t, Check(n));
            Parked(u) && u.led == s.led && u.cfg == s.cfg && u.clock == s.clock + 2
            && |u.ops| == n + 1 && u.ops[..n] == s.ops
            && u.ops[n] == Op(api, script, 0, Cleared, Unsent, None, s.clock, s.clock + 1)
  {
    hide LoopStep, DoDeliver;
    var t := DoBegin(s, api, script, 0).(clock := s.clock + 1);
    assert t.led == s.led;
  }

  /** What one whole call of `stop`, `restart` or `try_send` does to a parked actor. */
  ghost predicate RoundDone<A, R>(s: State<A, R>, t: State<A, R>, api: Api) {
    var n := |s.ops|;
    && Parked(t) && t.cfg == s.cfg && |t.ops| == n + 1 && t.ops[n].api == api
    && if api.AddrTrySend? && Full(s.led.box) then
         t.led == s.led && t.ops[n].pc == Done(Err(AlreadyStopped))
       else
         && t.led.accepted == s.led.accepted + [PayloadOf(t.ops[n], n)]
         && t.led.fates == (if !api.AddrTrySend? && Full(s.led.box) then s.led.fates + [Displaced] else s.led.fates)
         && t.ops[n].pc == Done(Ok(None)) && t.ops[n].entry == Some(|s.led.accepted|)
  }

  lemma DeliverRound<A, R>(u: State<A, R>, n: nat)
    requires Parked(u) && |u.ops| == n + 1 && u.ops[n].pc.Cleared? && Immediate(u.ops[n].api)
    ensures Enabled(u, Label.Deliver(n))
    ensures var t := DoDeliver(u, n);
            && t.loop == u.loop && t.handles == u.handles && t.cfg == u.cfg && |t.ops| == n + 1
            && t.ops[n].api == u.ops[n].api
            && if u.ops[n].api.AddrTrySend? && Full(u.led.box) then
                 t.led == u.led && t.ops[n].pc == Done(Err(AlreadyStopped))
               else
                 && t.led == (if u.ops[n].api.AddrTrySend? then Enqueue(u.led, PayloadOf(u.ops[n], n))
                              else Force(u.led, PayloadOf(u.ops[n], n)))
                 && PayloadOf(t.ops[n], n) == PayloadOf(u.ops[n], n)
                 && t.ops[n].pc == Done(Ok(None)) && t.ops[n].entry == Some(|u.led.accepted|)
  {
  }

  lemma RoundEffect<A, R>(s: State<A, R>, api: Api, script: Script<A, R>)
    requires Parked(s) && Immediate(api)
    ensures IsRun(s, Round(api, script, |s.ops|))
    ensures RoundDone(s, After(s, Round(api, script, |s.ops|)), api)
  {
    var n := |s.ops|;
    CheckedRound(s, api, script);
    var t := DoBegin(s, api, script, 0).(clock := s.clock + 1);
    var u := Step(t, Check(n));
    DeliverRound(u, n);
    StepDeliver(u, n);
    RunThree(s, Begin(api, script, 0), Check(n), Label.Deliver(n));
    hide Step, Enabled, DoDeliver, IsRun, After, DoBegin;
  }

  /** Extend a run by one round. */
  lemma ExtendByRound<A, R>(cfg: Config<A>, ls: seq<Label<A, R>>, s: State<A, R>, api: Api, script: Script<A, R>)
    returns (more: seq<Label<A, R>>, t: State<A, R>)
    requires Reaches(cfg, ls, s) && Parked(s) && Immediate(api)
    ensures Reaches(cfg, more, t) && RoundDone(s, t, api) && Grows(s, t)
  {
    var round := Round(api, script, |s.ops|);
    RoundEffect(s, api, script);
    RunConcat(InitState(cfg), ls, round);
    more := ls + round;
    t := After(s, round);
    Reachable(cfg, ls);
    RunGrows(s, round);
    hide Grows, RoundDone, Parked, FullInv;
  }

  /** Fill a bounded mailbox with `k` restarts. */
  lemma {:induction false} FillWithRestarts<A, R>(
    cfg: Config<A>, ls: seq<Label<A, R>>, s: State<A, R>, script: Script<A, R>, k: nat)
    returns (more: seq<Label<A, R>>, t: State<A, R>)
    requires Reaches(cfg, ls, s) && Parked(s) && s.led.fates == [] && cfg.capacity.Some?
    requires |s.led.accepted| + k == cfg.capacity.value
    ensures Reaches(cfg, more, t) && Parked(t) && Grows(s, t)
    ensures t.led.fates == [] && |t.led.accepted| == cfg.capacity.value
    decreases k
  {
    Reachable(cfg, ls);
    assert MailboxInv(s);
    RunGrows(s, []);
    NoStepsStay(s);
    CfgKept(cfg, ls, s);
    hide FullInv, Grows;
    if k == 0 {
      more, t := ls, s;
    } else {
      var mid, u := ExtendByRound(cfg, ls, s, AddrRestart, script);
      more, t := FillWithRestarts(cfg, mid, u, script, k - 1);
      GrowsTransitive(s, u, t);
    }
  }

  lemma NoStepsStay<A, R>(s: State<A, R>)
    ensures IsRun(s, []) && After(s, []) == s
  {
  }

  lemma CfgKept<A, R>(cfg: Config<A>, ls: seq<Label<A, R>>, s: State<A, R>)
    requires Reaches(cfg, ls, s)
    ensures s.cfg == cfg
  {
    var s0: State<A, R> := InitState(cfg);
    NoStepsStay(s0);
    Reachable<A, R>(cfg, []);
    RunGrows(s0, ls);
  }

  /** A `stop` that returned `Ok` and whose Stop was then thrown away unread. */
  ghost predicate StopLost<A, R>(s: State<A, R>) {
    exists o :: 0 <= o < |s.ops| && s.ops[o].api.AddrStop? && s.ops[o].pc == Done(Ok(None))
                && s.ops[o].entry.Some? && s.ops[o].entry.value < |s.led.fates|
                && s.led.fates[s.ops[o].entry.value].Displaced?
                && s.ops[o].entry.value < |s.led.accepted| && s.led.accepted[s.ops[o].entry.value].Stop?
  }

  ghost predicate LosesStop<A, R>(cfg: Config<A>, ls: seq<Label<A, R>>) {
    IsRun(InitState<A, R>(cfg), ls) && StopLost(After(InitState<A, R>(cfg), ls))
  }

  /** On every bounded mailbox: one `stop`, then as many restarts as the capacity, and the Stop is gone. */
  lemma StopCanBeLost<A, R>(cfg: Config<A>, script: Script<A, R>)
    returns (ls: seq<Label<A, R>>, s: State<A, R>)
    requires ValidConfig(cfg) && cfg.capacity.Some?
    ensures Reaches(cfg, ls, s) && StopLost(s)
  {
    var s0: State<A, R> := InitState(cfg);
    NoStepsStay(s0);
    var l1, s1 := ExtendByRound(cfg, [], s0, AddrStop, script);
    var l2, s2 := FillWithRestarts(cfg, l1, s1, script, cfg.capacity.value - 1);
    Reachable(cfg, l2);
    CfgKept(cfg, l2, s2);
    assert MailboxInv(s2);
    assert Full(s2.led.box);
    var l3, s3 := ExtendByRound(cfg, l2, s2, AddrRestart, script);
    GrowsTransitive(s1, s2, s3);
    hide FullInv, Parked;
    assert s3.ops[0].pc == s1.ops[0].pc && s3.ops[0].entry == s1.ops[0].entry && s3.ops[0].api == s1.ops[0].api;
    ls, s := l3, s3;
    SentPayload(cfg, ls, s, 0, s.ops[0].entry.value);
  }

  /** A Stop that `stop` reported as sent is never displaced, in any run, if and only if the mailbox is unbounded. */
  lemma StopKeptIffUnbounded<A, R>(cfg: Config<A>, script: Script<A, R>)
    requires ValidConfig(cfg)
    ensures cfg.capacity.None? <==>
            forall ls: seq<Label<A, R>> :: !LosesStop(cfg, ls)
  {
    var s0: State<A, R> := InitState(cfg);
    if cfg.capacity.None? {
      forall ls: seq<Label<A, R>> | IsRun(s0, ls)
        ensures !LosesStop(cfg, ls)
      {
        var s := After(s0, ls);
        Conservation(cfg, ls, s);
        CfgKept(cfg, ls, s);
        forall i | 0 <= i < |s.led.fates|
          ensures s.led.fates[i].Taken?
        {
          NoneDisplaced(s.led.fates, i);
        }
      }
    } else {
      var ls, s := StopCanBeLost(cfg, script);
      assert LosesStop(cfg, ls);
    }
  }

  // ----- when `AlreadyStopped` is true -----

  /** The operation was told that the actor has stopped. */
  predicate ToldStopped<A, R>(op: Op<A, R>) {
    op.pc == Done(Err(AlreadyStopped)) || op.pc == Done(Err(ChannelClosed))
  }

  ghost predicate NoneTold<A, R>(ops: seq<Op<A, R>>) {
    forall o :: 0 <= o < |ops| ==> !ToldStopped(ops[o])
  }

  /** Some operation was told that the actor has stopped while its loop still takes payloads. */
  ghost predicate LooksStopped<A, R>(s: State<A, R>) {
    Live(s.loop.phase) && !NoneTold(s.ops)
  }

  lemma ToldSlots<A, R>(ops: seq<Op<A, R>>, r: Option<nat>, slot: Slot<R>)
    requires NoneTold(ops)
    ensures NoneTold(SetSlot(ops, r, slot))
  {
  }

  lemma ToldLoop<A, R>(s: State<A, R>, l: Label<A, R>)
    requires Enabled(s, l) && LoopLabel(l) && NoneTold(s.ops)
    ensures NoneTold(Step(s, l).ops)
  {
    StepLoop(s, l);
    hide LoopNext, Enabled, CurrentReply, NoneTold, SetSlot, Step;
    ToldSlots(s.ops, CurrentReply(s), Lost);
    if l.Complete? {
      ToldSlots(s.ops, CurrentReply(s), Sent(Last(s.loop).work.script.answer(s.loop.actor)));
    }
  }

  lemma ToldDeliver<A, R>(s: State<A, R>, o: nat)
    requires FullInv(s) && s.loop.rx && s.led.box.capacity.None? && Enabled(s, Label.Deliver(o)) && NoneTold(s.ops)
    ensures NoneTold(DoDeliver(s, o).ops)
  {
    ClearedHolds(s, o);
    assert OpInv(s) && MailboxInv(s) && ClosedInv(s);
    assert !Refuses(s, o);
    hide FullInv;
    AcceptShape(s, o);
    hide OpInv, MailboxInv, DoDeliver, SetSlot, Victim, Refuses, Enabled, OpRefs;
  }

  lemma ToldClient<A, R>(s: State<A, R>, l: Label<A, R>)
    requires s.loop.flag && Enabled(s, l) && !LoopLabel(l) && !l.Deliver? && NoneTold(s.ops)
    ensures NoneTold(ClientStep(s, l).ops)
  {
    hide LoopStep, OpRefs, HandleRefs, Upgradable, DoDeliver;
    if l.LoseQueued? {
      hide NoneTold, SetSlot;
      ToldSlots(s.ops, ReplyOf(s.led.accepted[l.entry]), Lost);
    }
  }

  lemma ToldStep<A, R>(s: State<A, R>, l: Label<A, R>)
    requires FullInv(s) && s.cfg.capacity.None? && Enabled(s, l) && !LooksStopped(s)
    ensures !LooksStopped(Step(s, l))
  {
    if !Live(s.loop.phase) {
      hide FullInv, Step, Enabled;
      ExitDecreases(s, l);
    } else {
      assert ExitInv(s.cfg, s.loop) && MailboxInv(s);
      assert s.loop.flag && s.loop.rx && s.led.box.capacity.None?;
      hide FullInv, ExitInv, MailboxInv, NoneTold, LoopStep;
      if LoopLabel(l) {
        ToldLoop(s, l);
        hide Step;
      } else if l.Deliver? {
        ToldDeliver(s, l.op);
        StepDeliver(s, l.op);
        hide Step, DoDeliver;
      } else {
        ToldClient(s, l);
        hide ClientStep, Enabled;
      }
    }
  }

  lemma {:induction false} ToldRun<A, R>(s: State<A, R>, ls: seq<Label<A, R>>)
    requires FullInv(s) && s.cfg.capacity.None? && IsRun(s, ls) && !LooksStopped(s)
    ensures !LooksStopped(After(s, ls))
    decreases |ls|
  {
    hide FullInv, Step, Enabled, LooksStopped;
    if ls != [] {
      ToldStep(s, ls[0]);
      FullStep(s, ls[0]);
      RunGrowsOnce(s, ls[0]);
      ToldRun(Step(s, ls[0]), ls[1..]);
    }
  }

  ghost predicate CanLookStopped<A, R>(cfg: Config<A>, ls: seq<Label<A, R>>) {
    IsRun(InitState<A, R>(cfg), ls) && LooksStopped(After(InitState<A, R>(cfg), ls))
  }

  /** On every bounded mailbox: filled up, it answers the next `try_send` with `AlreadyStopped`. */
  lemma FullLooksStopped<A, R>(cfg: Config<A>, script: Script<A, R>)
    returns (ls: seq<Label<A, R>>, s: State<A, R>)
    requires ValidConfig(cfg) && cfg.capacity.Some?
    ensures Reaches(cfg, ls, s) && s.loop.flag && LooksStopped(s)
    ensures s.ops != [] && s.ops[|s.ops| - 1].api.AddrTrySend? && s.ops[|s.ops| - 1].pc == Done(Err(AlreadyStopped))
  {
    var s0: State<A, R> := InitState(cfg);
    NoStepsStay(s0);
    var l1, s1 := FillWithRestarts(cfg, [], s0, script, cfg.capacity.value);
    Reachable(cfg, l1);
    CfgKept(cfg, l1, s1);
    assert MailboxInv(s1);
    assert Full(s1.led.box);
    hide FullInv, Grows;
    ls, s := ExtendByRound(cfg, l1, s1, AddrTrySend, script);
    assert ToldStopped(s.ops[|s1.ops|]);
  }

  /** A refusal by a running actor occurs in some run if and only if the mailbox is bounded. */
  lemma StoppedTruthfulIffUnbounded<A, R>(cfg: Config<A>, script: Script<A, R>)
    requires ValidConfig(cfg)
    ensures cfg.capacity.None? <==> forall ls: seq<Label<A, R>> :: !CanLookStopped(cfg, ls)
  {
    var s0: State<A, R> := InitState(cfg);
    if cfg.capacity.None? {
      NoStepsStay(s0);
      Reachable<A, R>(cfg, []);
      forall ls: seq<Label<A, R>> | IsRun(s0, ls)
        ensures !CanLookStopped(cfg, ls)
      {
        ToldRun(s0, ls);
      }
    } else {
      var ls, s := FullLooksStopped(cfg, script);
      assert CanLookStopped(cfg, ls);
    }
  }
}

/**
 * What the actor protocol guarantees in every reachable state: sequential meaning of the actor and of
 * every answer, real-time order, call outcomes, the termination protocol, conservation of payloads,
 * the lifecycle language, stream merging, joins and reference counting.
 */
module ProtocolTheorems {
  import opened Base
  import opened Mailbox
  import opened Behaviour
  import L = Lifecycle
  import opened Protocol
  import opened LoopInvariants
  import opened ProtocolInvariants
  import opened ClientInvariants
  import opened ProtocolOwners

  /** `s` is reached by the run `ls` of some interleaving of clients and loop. */
  ghost predicate Reaches<A, R>(cfg: Config<A>, ls: seq<Label<A, R>>, s: State<A, R>) {
    ValidConfig(cfg) && IsRun(InitState(cfg), ls) && s == After(InitState(cfg), ls)
  }

  /** Turn `p` is the one that handled accepted entry `e`. */
  ghost predicate Handles<A, R>(s: State<A, R>, p: int, e: int) {
    0 <= p < |s.loop.turns| && 0 <= e && s.loop.turns[p].source == Source.Mailbox(e)
  }

  // ----- sequential refinement -----

  /**
   * However clients interleave, the actor is the sequential replay of its turns, and its mailbox turns
   * are accepted payloads in acceptance order, each as far as a timeout or panic let it get.
   */
  lemma SequentialRefinement<A, R>(cfg: Config<A>, ls: seq<Label<A, R>>, s: State<A, R>)
    requires Reaches(cfg, ls, s)
    ensures s.loop.phase in {Idle, Busy, Closing, Cancelling} ==> s.loop.actor == Replay(s.cfg, s.loop.turns)
    ensures s.loop.phase in {Notifying, Ended} && Normal(s.loop.exit) ==>
              s.loop.actor == s.cfg.hooks.stopped(Replay(s.cfg, s.loop.turns))
    ensures forall p, e :: Handles(s, p, e) ==>
              e < |s.led.accepted| && s.loop.turns[p].work == WorkOf(s.led.accepted[e])
    ensures forall p, q, d, e :: Handles(s, p, d) && Handles(s, q, e) ==> (p < q <==> d < e)
  {
    Reachable(cfg, ls);
    HandledInOrder(s);
  }

  lemma HandledInOrder<A, R>(s: State<A, R>)
    requires Corresponds(s.loop.turns, s.led.fates, s.led.accepted)
    ensures forall p, q, d, e :: Handles(s, p, d) && Handles(s, q, e) ==> (p < q <==> d < e)
  {
  }

  /** A handler that completed ran all its micro-steps and answered from the replay up to and including it. */
  lemma CompletedTurn<A, R>(cfg: Config<A>, ls: seq<Label<A, R>>, s: State<A, R>, p: nat)
    requires Reaches(cfg, ls, s)
    requires p < |s.loop.turns| && s.loop.turns[p].work.Run? && s.loop.turns[p].outcome.Completed?
    ensures var t := s.loop.turns[p];
            && Replay(s.cfg, s.loop.turns[..p + 1]) == RunSteps(t.work.script.steps, Replay(s.cfg, s.loop.turns[..p]))
            && t.outcome.answer == Some(t.work.script.answer(Replay(s.cfg, s.loop.turns[..p + 1])))
  {
    hide FullInv, GoodTurn, Replay, RunSteps;
    Reachable(cfg, ls);
    TurnShaped(s, p);
    TurnReplayed(s.cfg, s.loop.turns, p, s.loop.phase.Busy?);
  }

  lemma TurnShaped<A, R>(s: State<A, R>, p: nat)
    requires FullInv(s) && p < |s.loop.turns|
    ensures GoodTurn(s.cfg, s.loop.turns, p, s.loop.phase.Busy?)
  {
    hide GoodTurn;
  }

  lemma TurnReplayed<A, R>(cfg: Config<A>, turns: seq<Turn<A, R>>, p: nat, busy: bool)
    requires p < |turns| && turns[p].work.Run? && turns[p].outcome.Completed? && GoodTurn(cfg, turns, p, busy)
    ensures var t := turns[p];
            && Replay(cfg, turns[..p + 1]) == RunSteps(t.work.script.steps, Replay(cfg, turns[..p]))
            && t.outcome.answer == Some(t.work.script.answer(Replay(cfg, turns[..p + 1])))
  {
    var t := turns[p];
    assert turns[..p + 1] == turns[..p] + [t];
    assert t.work.script.steps[..|t.work.script.steps|] == t.work.script.steps;
    ReplaySnoc(cfg, turns[..p], t);
  }

  /**
   * What a restart does to the actor: `RestartOnly` runs `stopped` and `started` on it, `RecreateFromDefault`
   * runs `started` on a default actor, and a loop that cannot restart leaves it alone.  A restart whose
   * `started` failed or panicked got as far as that, and one whose `stopped` panicked changed nothing.
   */
  lemma RefreshedTurn<A, R>(cfg: Config<A>, ls: seq<Label<A, R>>, s: State<A, R>, p: nat)
    requires Reaches(cfg, ls, s) && p < |s.loop.turns| && s.loop.turns[p].work.Refresh?
    ensures var before, after := Replay(s.cfg, s.loop.turns[..p]), Replay(s.cfg, s.loop.turns[..p + 1]);
            match s.loop.turns[p].outcome
            case Completed(_) =>
              (match s.cfg.strategy
               case NonRestartable => after == before
               case RestartOnly => after == s.cfg.hooks.started(s.cfg.hooks.stopped(before))
               case RecreateFromDefault => after == s.cfg.hooks.started(s.cfg.hooks.blank))
            case Cut => false
            case _ =>
              if s.cfg.strategy.NonRestartable? || s.loop.turns[p].ran == 0 then after == before
              else after == if s.cfg.strategy.RestartOnly? then s.cfg.hooks.stopped(before) else s.cfg.hooks.blank
  {
    hide FullInv, GoodTurn, Replay;
    Reachable(cfg, ls);
    TurnShaped(s, p);
    RefreshReplayed(s.cfg, s.loop.turns, p, s.loop.phase.Busy?);
  }

  lemma RefreshReplayed<A, R>(cfg: Config<A>, turns: seq<Turn<A, R>>, p: nat, busy: bool)
    requires p < |turns| && turns[p].work.Refresh? && GoodTurn(cfg, turns, p, busy)
    ensures Replay(cfg, turns[..p + 1]) == RefreshStage(cfg, turns[p].ran, Replay(cfg, turns[..p]))
    ensures !turns[p].outcome.Cut? && (!turns[p].outcome.Completed? ==> turns[p].ran <= 1)
    ensures turns[p].outcome.Completed? ==> turns[p].ran == if cfg.strategy.NonRestartable? then 0 else 2
  {
    assert turns[..p + 1] == turns[..p] + [turns[p]];
    ReplaySnoc(cfg, turns[..p], turns[p]);
  }

  /**
   * The turns besides handlers and restarts, and handlers that were cut or broke: `finished` is applied once,
   * a Stop changes nothing, and a handler has done the micro-steps it ran.
   */
  lemma OtherTurns<A, R>(cfg: Config<A>, ls: seq<Label<A, R>>, s: State<A, R>, p: nat)
    requires Reaches(cfg, ls, s) && p < |s.loop.turns|
    ensures var before, after := Replay(s.cfg, s.loop.turns[..p]), Replay(s.cfg, s.loop.turns[..p + 1]);
            match s.loop.turns[p].work
            case Halt => after == before
            case Conclude => s.loop.turns[p].outcome.Completed? ==> after == s.cfg.hooks.finished(before)
            case Run(script) =>
              s.loop.turns[p].ran <= |script.steps| && after == RunSteps(script.steps[..s.loop.turns[p].ran], before)
            case Refresh => true
  {
    hide FullInv, GoodTurn, Replay, RunSteps;
    Reachable(cfg, ls);
    TurnShaped(s, p);
    OtherReplayed(s.cfg, s.loop.turns, p, s.loop.phase.Busy?);
  }

  lemma OtherReplayed<A, R>(cfg: Config<A>, turns: seq<Turn<A, R>>, p: nat, busy: bool)
    requires p < |turns| && GoodTurn(cfg, turns, p, busy)
    ensures Replay(cfg, turns[..p + 1]) == TurnEffect(cfg, turns[p], Replay(cfg, turns[..p]))
    ensures turns[p].work.Run? ==> turns[p].ran <= |turns[p].work.script.steps|
    ensures turns[p].work.Conclude? && turns[p].outcome.Completed? ==> turns[p].ran == 1
  {
    assert turns[..p + 1] == turns[..p] + [turns[p]];
    ReplaySnoc(cfg, turns[..p], turns[p]);
  }

  /** Before its first turn a started actor is the initial one after `started`. */
  lemma BootedActor<A, R>(cfg: Config<A>, ls: seq<Label<A, R>>, s: State<A, R>)
    requires Reaches(cfg, ls, s) && s.loop.turns == []
    ensures s.loop.phase.Spawned? || s.loop.phase.Booting? ==> s.loop.actor == s.cfg.init
    ensures s.loop.phase.Idle? || s.loop.phase.Closing? ==> s.loop.actor == s.cfg.hooks.started(s.cfg.init)
  {
    hide FullInv;
    Reachable(cfg, ls);
    assert ActorInv(s.cfg, s.loop) by { ActorParts(s); }
  }

  lemma ActorParts<A, R>(s: State<A, R>)
    requires FullInv(s)
    ensures ActorInv(s.cfg, s.loop)
  {
    hide ActorInv;
  }

  /**
   * Linearizability.  If operation `i` had returned before operation `j` began, `i`'s payload is ahead of
   * `j`'s in acceptance order, and if both are handled, `i`'s turn comes first.
   */
  lemma RealTimeOrder<A, R>(cfg: Config<A>, ls: seq<Label<A, R>>, s: State<A, R>, i: nat, j: nat)
    requires Reaches(cfg, ls, s) && i < |s.ops| && j < |s.ops|
    requires s.ops[i].pc.Done? && s.ops[i].entry.Some? && s.ops[j].entry.Some?
    requires s.ops[i].ended < s.ops[j].begun
    ensures s.ops[i].entry.value < s.ops[j].entry.value
    ensures forall p, q :: Handles(s, p, s.ops[i].entry.value) && Handles(s, q, s.ops[j].entry.value) ==> p < q
  {
    hide FullInv, GoodSlot, GoodPc;
    Reachable(cfg, ls);
    OpFacts(s, i);
    OpFacts(s, j);
    StampsRise(s, s.ops[j].entry.value, s.ops[i].entry.value);
    SequentialRefinement(cfg, ls, s);
  }

  lemma StampsRise<A, R>(s: State<A, R>, d: nat, e: nat)
    requires FullInv(s) && d < |s.stamps| && e < |s.stamps|
    ensures d <= e ==> s.stamps[d] <= s.stamps[e]
  {
  }

  // ----- call outcomes -----

  lemma OpFacts<A, R>(s: State<A, R>, o: nat)
    requires FullInv(s) && o < |s.ops|
    ensures GoodPc(s.ops[o], s.loop.shots)
    ensures GoodEntry(s.ops[o], o, s.led.accepted, s.stamps, s.clock)
    ensures GoodSlot(s.ops[o], s.led.fates, s.loop.turns, s.loop.rx)
  {
  }

  /** A call that returned `Ok(v)`: exactly one turn handled its payload, it completed, and it answered `v`. */
  lemma CallAnswered<A, R>(cfg: Config<A>, ls: seq<Label<A, R>>, s: State<A, R>, o: nat, v: R)
    returns (p: nat)
    requires Reaches(cfg, ls, s) && o < |s.ops| && s.ops[o].pc == Done(Ok(Some(v)))
    ensures s.ops[o].entry.Some? && Handles(s, p, s.ops[o].entry.value)
    ensures forall q :: Handles(s, q, s.ops[o].entry.value) ==> q == p
    ensures s.loop.turns[p].work == Run(s.ops[o].script) && s.loop.turns[p].outcome == Completed(Some(v))
    ensures v == s.ops[o].script.answer(
                   RunSteps(s.ops[o].script.steps, Replay(s.cfg, s.loop.turns[..p])))
  {
    hide FullInv, GoodSlot, GoodEntry, GoodPc;
    Reachable(cfg, ls);
    OpFacts(s, o);
    p := SentSlot(s.ops[o], s.led.fates, s.loop.turns, s.loop.rx, s.loop.shots, v);
    var e := s.ops[o].entry.value;
    TakenTurn(s, e);
    OwnReply(s, o, e);
    CompletedTurn(cfg, ls, s, p);
    forall q | Handles(s, q, e)
      ensures q == p
    {
      HandledEntry(s, q, e);
    }
  }

  lemma SentSlot<A, R>(op: Op<A, R>, fates: seq<Fate>, turns: seq<Turn<A, R>>, rx: bool, shots: nat, v: R)
    returns (p: nat)
    requires GoodPc(op, shots) && GoodSlot(op, fates, turns, rx) && op.pc == Done(Ok(Some(v)))
    ensures op.entry.Some? && HasReply(op.api) && op.entry.value < |fates| && fates[op.entry.value] == Taken(p)
    ensures p < |turns| && turns[p].outcome == Completed(Some(v))
  {
    p := fates[op.entry.value].turn;
  }

  lemma TakenTurn<A, R>(s: State<A, R>, e: nat)
    requires FullInv(s) && e < |s.led.fates| && s.led.fates[e].Taken?
    ensures Handles(s, s.led.fates[e].turn, e)
    ensures e < |s.led.accepted| && s.loop.turns[s.led.fates[e].turn].work == WorkOf(s.led.accepted[e])
  {
    assert Corresponds(s.loop.turns, s.led.fates, s.led.accepted);
    hide FullInv;
  }

  /** The reply slot of a canceled call is lost, so its entry was displaced or its turn did not complete. */
  lemma CanceledSlot<A, R>(s: State<A, R>, o: nat)
    requires FullInv(s) && o < |s.ops| && s.ops[o].pc == Done(Err(Canceled))
    ensures s.ops[o].entry.Some?
    ensures var e := s.ops[o].entry.value;
            e < |s.led.fates| && s.led.fates[e].Taken? ==>
              s.led.fates[e].turn < |s.loop.turns| && s.loop.turns[s.led.fates[e].turn].outcome in {Outcome<R>.Cut, Broken}
  {
    hide FullInv, GoodEntry, GoodPc, GoodSlot;
    OpFacts(s, o);
    LostSlot(s.ops[o], s.led.fates, s.loop.turns, s.loop.rx, s.loop.shots);
  }

  lemma LostSlot<A, R>(op: Op<A, R>, fates: seq<Fate>, turns: seq<Turn<A, R>>, rx: bool, shots: nat)
    requires GoodPc(op, shots) && GoodSlot(op, fates, turns, rx) && op.pc == Done(Err(Canceled))
    ensures op.entry.Some? && op.slot.Lost?
    ensures op.entry.value < |fates| && fates[op.entry.value].Taken? ==>
              var p := fates[op.entry.value].turn;
              p < |turns| && turns[p].outcome in {Outcome<R>.Cut, Broken}
  {
  }

  lemma HandledEntry<A, R>(s: State<A, R>, p: int, e: int)
    requires FullInv(s) && Handles(s, p, e)
    ensures e < |s.led.fates| && s.led.fates[e] == Taken(p)
    ensures e < |s.led.accepted| && s.loop.turns[p].work == WorkOf(s.led.accepted[e])
  {
    assert Corresponds(s.loop.turns, s.led.fates, s.led.accepted);
    hide FullInv;
  }

  lemma CanceledTurns<A, R>(s: State<A, R>, o: nat)
    requires FullInv(s) && o < |s.ops| && s.ops[o].pc == Done(Err(Canceled))
    ensures s.ops[o].entry.Some?
    ensures forall p :: Handles(s, p, s.ops[o].entry.value) ==> s.loop.turns[p].outcome in {Outcome<R>.Cut, Broken}
  {
    hide FullInv;
    CanceledSlot(s, o);
    forall p | Handles(s, p, s.ops[o].entry.value)
      ensures s.loop.turns[p].outcome in {Outcome<R>.Cut, Broken}
    {
      HandledEntry(s, p, s.ops[o].entry.value);
    }
  }

  /** A call that returned `Canceled` was accepted, and no turn of its message completed. */
  lemma CallCanceled<A, R>(cfg: Config<A>, ls: seq<Label<A, R>>, s: State<A, R>, o: nat)
    requires Reaches(cfg, ls, s) && o < |s.ops| && s.ops[o].pc == Done(Err(Canceled))
    ensures s.ops[o].entry.Some?
    ensures forall p :: Handles(s, p, s.ops[o].entry.value) ==> s.loop.turns[p].outcome in {Outcome<R>.Cut, Broken}
  {
    hide FullInv;
    Reachable(cfg, ls);
    CanceledTurns(s, o);
  }

  /** Every accepted payload is the payload of exactly one operation. */
  lemma OneSenderPerEntry<A, R>(cfg: Config<A>, ls: seq<Label<A, R>>, s: State<A, R>, e: nat) returns (o: nat)
    requires Reaches(cfg, ls, s) && e < |s.led.accepted|
    ensures Owns(s.ops, o, e) && s.led.accepted[e] == PayloadOf(s.ops[o], o)
    ensures forall q :: Owns(s.ops, q, e) ==> q == o
  {
    OwnedReachable(cfg, ls);
    Reachable(cfg, ls);
    assert HasOwner(s.ops, e);
    o :| Owns(s.ops, o, e);
    OpFacts(s, o);
  }

  /** What each entry point puts into the mailbox, and what the turn that takes it works on. */
  lemma SentPayload<A, R>(cfg: Config<A>, ls: seq<Label<A, R>>, s: State<A, R>, o: nat, e: nat)
    requires Reaches(cfg, ls, s) && o < |s.ops| && s.ops[o].entry == Some(e)
    ensures e < |s.led.accepted|
    ensures match s.ops[o].api
            case AddrStop => s.led.accepted[e] == Stop && forall p :: Handles(s, p, e) ==> s.loop.turns[p].work.Halt?
            case CtxStop => s.led.accepted[e] == Stop && forall p :: Handles(s, p, e) ==> s.loop.turns[p].work.Halt?
            case AddrRestart =>
              s.led.accepted[e] == Restart && forall p :: Handles(s, p, e) ==> s.loop.turns[p].work.Refresh?
            case CtxRestart =>
              s.led.accepted[e] == Restart && forall p :: Handles(s, p, e) ==> s.loop.turns[p].work.Refresh?
            case AddrAwait => false
            case AddrCall => SentTask(s, e, s.ops[o].script, Some(o))
            case CallerCall => SentTask(s, e, s.ops[o].script, Some(o))
            case AddrSend => SentTask(s, e, s.ops[o].script, None)
            case AddrTrySend => SentTask(s, e, s.ops[o].script, None)
            case SenderSend => SentTask(s, e, s.ops[o].script, None)
            case SenderTrySend => SentTask(s, e, s.ops[o].script, None)
            case SenderForceSend => SentTask(s, e, s.ops[o].script, None)
  {
    hide FullInv, GoodSlot, GoodEntry, GoodPc;
    Reachable(cfg, ls);
    OwnReply(s, o, e);
    AwaitEntry(s, o);
    forall p | Handles(s, p, e)
      ensures s.loop.turns[p].work == WorkOf(s.led.accepted[e])
    {
      HandledEntry(s, p, e);
    }
  }

  /** Entry `e` is a task with `script`, and whatever turn takes it runs that. */
  ghost predicate SentTask<A, R>(s: State<A, R>, e: nat, script: Script<A, R>, reply: Option<nat>)
    requires e < |s.led.accepted|
  {
    s.led.accepted[e] == Task(script, reply) && forall p :: Handles(s, p, e) ==> s.loop.turns[p].work == Run(script)
  }

  /** An await accepts nothing. */
  lemma AwaitEntry<A, R>(s: State<A, R>, o: nat)
    requires FullInv(s) && o < |s.ops|
    ensures s.ops[o].api.AddrAwait? ==> s.ops[o].entry.None?
  {
    OpFacts(s, o);
  }

  /** What each entry point can answer. */
  lemma Answers<A, R>(cfg: Config<A>, ls: seq<Label<A, R>>, s: State<A, R>, o: nat, res: Result<Option<R>>)
    requires Reaches(cfg, ls, s) && o < |s.ops| && s.ops[o].pc == Done(res)
    ensures match s.ops[o].api
            case AddrAwait => res == Ok(None)
            case AddrCall => (res.Ok? && res.value.Some?) || res == Err(Canceled) || res == Err(AlreadyStopped)
            case CallerCall => (res.Ok? && res.value.Some?) || res == Err(Canceled) || res == Err(ChannelClosed)
            case SenderSend => res == Ok(None) || res == Err(ChannelClosed)
            case SenderTrySend => res == Ok(None) || res == Err(ChannelClosed)
            case SenderForceSend => res == Ok(None) || res == Err(ChannelClosed)
            case CtxStop => res == Ok(None) || res == Err(AlreadyStopped) || res == Err(ActorDropped)
            case CtxRestart => res == Ok(None) || res == Err(AlreadyStopped) || res == Err(ActorDropped)
            case _ => res == Ok(None) || res == Err(AlreadyStopped)
  {
    hide FullInv, GoodSlot, GoodEntry;
    Reachable(cfg, ls);
    OpFacts(s, o);
  }

  /**
   * An operation answered with a refusal put nothing into the mailbox: every entry was sent by some other
   * operation, so no turn ever serves it.
   */
  lemma RefusedNeverStarts<A, R>(cfg: Config<A>, ls: seq<Label<A, R>>, s: State<A, R>, o: nat, err: ActorError)
    requires Reaches(cfg, ls, s) && o < |s.ops| && s.ops[o].pc == Done(Err(err)) && err != Canceled
    ensures s.ops[o].entry.None?
    ensures forall e :: 0 <= e < |s.led.accepted| ==> ReplyOf(s.led.accepted[e]) != Some(o) && SentByAnother(s, e, o)
  {
    Reachable(cfg, ls);
    OpFacts(s, o);
    forall e | 0 <= e < |s.led.accepted|
      ensures ReplyOf(s.led.accepted[e]) != Some(o) && SentByAnother(s, e, o)
    {
      assert ReplyOf(s.led.accepted[e]).Some? ==> s.ops[ReplyOf(s.led.accepted[e]).value].entry == Some(e);
      var q := OneSenderPerEntry(cfg, ls, s, e);
    }
  }

  ghost predicate SentByAnother<A, R>(s: State<A, R>, e: nat, o: nat)
    requires e < |s.led.accepted|
  {
    exists q: nat :: Owns(s.ops, q, e) && q != o && s.led.accepted[e] == PayloadOf(s.ops[q], q)
  }

  /** A completed turn answers the operation that sent its payload, and no other operation sees that answer. */
  lemma AnswerReachesItsCaller<A, R>(cfg: Config<A>, ls: seq<Label<A, R>>, s: State<A, R>, p: nat, e: nat, o: nat)
    requires Reaches(cfg, ls, s) && Handles(s, p, e) && e < |s.led.accepted|
    requires ReplyOf(s.led.accepted[e]) == Some(o)
    ensures o < |s.ops| && s.ops[o].entry == Some(e) && s.loop.turns[p].work == Run(s.ops[o].script)
    ensures SlotMatches(s.ops[o].slot, s.loop.turns[p].outcome)
    ensures forall q :: 0 <= q < |s.ops| && HasReply(s.ops[q].api) && s.ops[q].entry == Some(e) ==> q == o
  {
    hide FullInv, GoodSlot, GoodEntry, GoodPc, SlotMatches;
    Reachable(cfg, ls);
    HandledEntry(s, p, e);
    ReplyLinked(s, e);
    OpFacts(s, o);
    OwnReply(s, o, e);
    AnswerSlot(s.ops[o], s.led.fates, s.loop.turns, s.loop.rx, e, p);
    forall q | 0 <= q < |s.ops| && HasReply(s.ops[q].api) && s.ops[q].entry == Some(e)
      ensures q == o
    {
      OwnReply(s, q, e);
    }
  }

  lemma ReplyLinked<A, R>(s: State<A, R>, e: nat)
    requires FullInv(s) && e < |s.led.accepted| && ReplyOf(s.led.accepted[e]).Some?
    ensures var o := ReplyOf(s.led.accepted[e]).value; o < |s.ops| && s.ops[o].entry == Some(e)
  {
  }

  lemma AnswerSlot<A, R>(op: Op<A, R>, fates: seq<Fate>, turns: seq<Turn<A, R>>, rx: bool, e: nat, p: nat)
    requires GoodSlot(op, fates, turns, rx) && HasReply(op.api) && op.entry == Some(e)
    requires e < |fates| && fates[e] == Taken(p)
    ensures p < |turns| && SlotMatches(op.slot, turns[p].outcome)
  {
  }

  /** An entry with a reply names the operation that holds it. */
  lemma OwnReply<A, R>(s: State<A, R>, o: nat, e: nat)
    requires FullInv(s) && o < |s.ops| && s.ops[o].entry == Some(e)
    ensures e < |s.led.accepted| && s.led.accepted[e] == PayloadOf(s.ops[o], o)
    ensures HasReply(s.ops[o].api) ==> ReplyOf(s.led.accepted[e]) == Some(o)
  {
    hide FullInv, GoodSlot, GoodPc;
    OpFacts(s, o);
  }

  // ----- termination -----

  /**
   * The flag is down exactly once the notifier acted; the one-shot carries at most one value and is
   * fired by the time the loop has ended, whichever of the exits it took; awaiting an address never
   * fails, and when it resolved the flag is down.
   */
  lemma TerminationPublished<A, R>(cfg: Config<A>, ls: seq<Label<A, R>>, s: State<A, R>)
    requires Reaches(cfg, ls, s)
    ensures s.loop.shots <= 1 && (s.loop.shots == 1 ==> !s.loop.flag)
    ensures s.loop.phase.Ended? ==> s.loop.shots == 1 && !s.loop.flag && !s.loop.rx && s.led.box.closed
    ensures !s.loop.flag ==> s.loop.phase in {Notifying, Unwinding, Ended}
    ensures forall o :: 0 <= o < |s.ops| && s.ops[o].api.AddrAwait? && s.ops[o].pc.Done? ==>
              s.ops[o].pc == Done(Ok(None)) && !s.loop.flag
  {
    hide FullInv, GoodSlot, GoodEntry, GoodPc;
    Reachable(cfg, ls);
    Published(s);
    forall o | 0 <= o < |s.ops| && s.ops[o].api.AddrAwait? && s.ops[o].pc.Done?
      ensures s.ops[o].pc == Done(Ok(None)) && !s.loop.flag
    {
      OpFacts(s, o);
      AwaitDone(s.ops[o], s.loop.shots);
    }
  }

  lemma Published<A, R>(s: State<A, R>)
    requires FullInv(s)
    ensures s.loop.shots <= 1 && (s.loop.shots == 1 ==> !s.loop.flag)
    ensures s.loop.phase.Ended? ==> s.loop.shots == 1 && !s.loop.flag && !s.loop.rx && s.led.box.closed
    ensures !s.loop.flag ==> s.loop.phase in {Notifying, Unwinding, Ended}
  {
  }

  lemma AwaitDone<A, R>(op: Op<A, R>, shots: nat)
    requires GoodPc(op, shots) && op.api.AddrAwait? && op.pc.Done?
    ensures op.pc == Done(Ok(None)) && shots > 0
  {
  }

  /**
   * Each exit has its cause: a Stop was the last turn, the channel was closed and empty, the timer cut the
   * last handler of a loop that fails on timeouts, or a `started` hook failed; and a turn is cut only
   * where a timeout is configured.
   */
  lemma ExitCauses<A, R>(cfg: Config<A>, ls: seq<Label<A, R>>, s: State<A, R>)
    requires Reaches(cfg, ls, s)
    ensures s.loop.exit.ByStop? ==> s.loop.turns != [] && Last(s.loop).work.Halt?
    ensures s.loop.exit.ByChannelEnd? ==> s.led.box.queue == [] && s.led.box.closed
    ensures s.loop.exit.TimedOut? ==> s.loop.turns != [] && Last(s.loop).outcome.Cut? && s.cfg.failOnTimeout
    ensures s.loop.exit.StartFailed? ==> s.loop.turns == []
    ensures s.loop.exit.RestartFailed? ==>
              s.loop.turns != [] && Last(s.loop).work.Refresh? && Last(s.loop).outcome.Broken?
    ensures forall p :: 0 <= p < |s.loop.turns| && s.loop.turns[p].outcome.Cut? ==>
              s.loop.turns[p].work.Run? && s.cfg.timeout && (s.cfg.failOnTimeout ==> p == |s.loop.turns| - 1)
  {
    Reachable(cfg, ls);
    forall p | 0 <= p < |s.loop.turns|
      ensures Shaped(s.cfg, s.loop.turns[p], p == |s.loop.turns| - 1, s.loop.phase.Busy?)
    {
      assert GoodTurn(s.cfg, s.loop.turns, p, s.loop.phase.Busy?);
    }
  }

  /** What no longer changes once the flag is down. */
  ghost predicate Silent<A, R>(lp: Loop<A, R>, np: Loop<A, R>) {
    !np.flag && np.trace == lp.trace && np.turns == lp.turns && np.actor == lp.actor
  }

  lemma SilentLoop<A, R>(cfg: Config<A>, lp: Loop<A, R>, led: Ledger<Payload<A, R>>, l: Label<A, R>)
    requires ExitInv(cfg, lp) && !lp.flag && LoopLabel(l) && LoopEnabled(cfg, lp, led.box, l)
    ensures Silent(lp, LoopNext(cfg, lp, led, l))
  {
    assert lp.phase in {Notifying, Unwinding, Ended};
    assert l.Lower? || l.Fire? || l.DropRx? || l.DropCtx? || l.Exit?;
    hide ExitInv, TakePayload, RunTimeout, RunMicro, RefreshDown, RefreshUp, EndTurn;
  }

  lemma SilentStep<A, R>(s: State<A, R>, l: Label<A, R>)
    requires FullInv(s) && Enabled(s, l) && !s.loop.flag
    ensures Silent(s.loop, Step(s, l).loop)
  {
    assert ExitInv(s.cfg, s.loop);
    hide FullInv, Silent, LoopNext, LoopSlots, LoopLedger, DoDeliver, ExitInv;
    if LoopLabel(l) {
      hide ClientStep;
      SilentLoop(s.cfg, s.loop, s.led, l);
    } else {
      ClientKeepsLoop(s, l);
      hide Enabled, ClientStep, LoopStep;
      QuietSilent(s.loop);
    }
  }

  lemma QuietSilent<A, R>(lp: Loop<A, R>)
    requires !lp.flag
    ensures Silent(lp, lp)
  {
  }

  lemma ClientKeepsLoop<A, R>(s: State<A, R>, l: Label<A, R>)
    requires Enabled(s, l) && !LoopLabel(l)
    ensures ClientStep(s, l).loop == s.loop
  {
    if l.Deliver? {
      hide DoDeliver, Advance;
      DeliverJoins(s, l.op);
    } else {
      QuietClient(s, l);
      hide ClientStep;
    }
  }

  /** Once the flag is down, however the run goes on, it stays down and no hook, handler or micro-step runs. */
  lemma SilentOnceDown<A, R>(cfg: Config<A>, ls: seq<Label<A, R>>, s: State<A, R>, more: seq<Label<A, R>>)
    requires Reaches(cfg, ls, s) && !s.loop.flag && IsRun(s, more)
    ensures Silent(s.loop, After(s, more).loop)
  {
    Reachable(cfg, ls);
    SilentRun(s, more);
  }

  lemma {:induction false} SilentRun<A, R>(s: State<A, R>, more: seq<Label<A, R>>)
    requires FullInv(s) && !s.loop.flag && IsRun(s, more)
    ensures Silent(s.loop, After(s, more).loop)
    decreases |more|
  {
    hide FullInv, Enabled, Step;
    if more != [] {
      SilentStep(s, more[0]);
      FullStep(s, more[0]);
      SilentRun(Step(s, more[0]), more[1..]);
    }
  }

  // ----- the lifecycle language -----

  /**
   * Hook invocations are the ones the turns call for, and form a word of the lifecycle automaton; a normal
   * end has as many `started` as `stopped`, a timeout failure ends in its only `cancelled`, and no other
   * exit but a panic can have a `cancelled`.
   */
  lemma LifecycleLanguage<A, R>(cfg: Config<A>, ls: seq<Label<A, R>>, s: State<A, R>)
    requires Reaches(cfg, ls, s)
    ensures L.Run(s.loop.trace) != L.Illegal
    ensures s.loop.trace == []
            || s.loop.trace == TraceOf(s.cfg, s.loop.turns)
            || (s.loop.exit in {ByChannelEnd, Panicked} && s.loop.trace == TraceOf(s.cfg, s.loop.turns) + [L.Stopped])
    ensures s.loop.trace == [] <==> s.loop.phase.Spawned?
    ensures s.loop.exit.ByChannelEnd? ==> s.loop.trace == TraceOf(s.cfg, s.loop.turns) + [L.Stopped]
    ensures s.loop.phase in {Notifying, Ended} && Normal(s.loop.exit) ==>
              L.Count(s.loop.trace, L.Started) == L.Count(s.loop.trace, L.Stopped) > 0
              && L.Count(s.loop.trace, L.Cancelled) == 0
    ensures s.loop.phase.Ended? && s.loop.exit.TimedOut? ==>
              L.Count(s.loop.trace, L.Cancelled) == 1 && s.loop.trace[|s.loop.trace| - 1] == L.Cancelled
              && L.Count(s.loop.trace, L.Started) == L.Count(s.loop.trace, L.Stopped) + 1
    ensures s.loop.phase.Ended? && s.loop.exit in {StartFailed, RestartFailed} ==>
              L.Count(s.loop.trace, L.Cancelled) == 0
              && L.Count(s.loop.trace, L.Started) == L.Count(s.loop.trace, L.Stopped) + 1
  {
    Reachable(cfg, ls);
    L.ModeCounts(s.loop.trace);
  }

  // ----- the mailbox -----

  /**
   * Conservation: the queue is the suffix of the accepted sequence whose fate is open; every other
   * entry was displaced, or dequeued by exactly one turn; displaced entries never outnumber forced sends.
   */
  lemma Conservation<A, R>(cfg: Config<A>, ls: seq<Label<A, R>>, s: State<A, R>)
    requires Reaches(cfg, ls, s)
    ensures |s.led.fates| <= |s.led.accepted| && s.led.box.queue == s.led.accepted[|s.led.fates|..]
    ensures forall e :: 0 <= e < |s.led.fates| ==>
              (s.led.fates[e].Taken? <==> exists p :: Handles(s, p, e))
    ensures forall p, q, e :: Handles(s, p, e) && Handles(s, q, e) ==> p == q && e < |s.led.fates|
    ensures CountDisplaced(s.led.fates) <= s.led.forces
    ensures s.cfg.capacity.None? ==> CountDisplaced(s.led.fates) == 0
  {
    Reachable(cfg, ls);
    forall e | 0 <= e < |s.led.fates| && s.led.fates[e].Taken?
      ensures exists p :: Handles(s, p, e)
    {
      assert Handles(s, s.led.fates[e].turn, e);
    }
  }

  /** A loop that ended because every strong handle was dropped had dequeued everything not displaced. */
  lemma GracefulDrain<A, R>(cfg: Config<A>, ls: seq<Label<A, R>>, s: State<A, R>)
    requires Reaches(cfg, ls, s) && s.loop.exit.ByChannelEnd?
    ensures |s.led.fates| == |s.led.accepted|
    ensures forall e :: 0 <= e < |s.led.accepted| ==>
              s.led.fates[e].Displaced? || exists p :: Handles(s, p, e)
    ensures s.loop.rx ==> s.led.box.strong == 0
  {
    Reachable(cfg, ls);
    Conservation(cfg, ls, s);
  }

  // ----- streams -----

  /**
   * A stream-handling actor takes the stream's items one turn each, in stream order, none lost or
   * repeated, between mailbox turns that keep acceptance order; `finished` comes at most once, last.
   */
  lemma StreamMerge<A, R>(cfg: Config<A>, ls: seq<Label<A, R>>, s: State<A, R>)
    requires Reaches(cfg, ls, s)
    ensures ItemsOf(s.loop.turns) == seq(s.loop.items, i => i)
    ensures forall p :: 0 <= p < |s.loop.turns| ==>
              s.loop.turns[p].source.Mailbox? || s.loop.turns[p].work.Run? || s.loop.turns[p].work.Conclude?
    ensures forall p, q :: 0 <= p < |s.loop.turns| && 0 <= q < |s.loop.turns| && s.loop.turns[p].work.Conclude? ==>
              (s.loop.turns[q].work.Conclude? ==> p == q) && (s.loop.turns[q].source.Stream? ==> q <= p)
  {
    Reachable(cfg, ls);
  }

  // ----- joins -----

  /** At most one join yields an actor, only after a normal end, and then it is the final replayed state. */
  lemma JoinOnce<A, R>(cfg: Config<A>, ls: seq<Label<A, R>>, s: State<A, R>, j: nat)
    requires Reaches(cfg, ls, s) && j < |s.joins| && s.joins[j].Joined? && s.joins[j].actor.Some?
    ensures forall i :: 0 <= i < |s.joins| && i != j ==> s.joins[i] == Joined(None)
    ensures s.loop.phase.Ended? && Normal(s.loop.exit)
    ensures s.joins[j].actor.value == s.cfg.hooks.stopped(Replay(s.cfg, s.loop.turns))
  {
    Reachable(cfg, ls);
  }

  // ----- references -----

  /**
   * The strong count is live addresses + 3 per live sender + live callers + operations in flight;
   * weak handles, contexts and idle timers count nothing.  At zero, or once the receiver is gone, the
   * mailbox is closed, and while the receiver lives it is closed only at zero.
   */
  lemma ReferencesExact<A, R>(cfg: Config<A>, ls: seq<Label<A, R>>, s: State<A, R>)
    requires Reaches(cfg, ls, s)
    ensures s.led.box.strong == Sum(HandleRefsOf(s.handles)) + Sum(OpRefsOf(s.ops))
    ensures s.led.box.closed <==> s.led.box.strong == 0 || !s.loop.rx
    ensures forall h :: 0 <= h < |s.handles| && s.handles[h].live && !Weak(s.handles[h].kind) ==> s.led.box.strong > 0
  {
    Reachable(cfg, ls);
    forall h | 0 <= h < |s.handles| && s.handles[h].live && !Weak(s.handles[h].kind)
      ensures s.led.box.strong > 0
    {
      LiveHandleHolds(s, h);
    }
  }
}

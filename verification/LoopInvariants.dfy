/** Invariants of the event loop alone, kept by every step it takes. */
module LoopInvariants {
  import opened Base
  import opened Mailbox
  import opened Behaviour
  import L = Lifecycle
  import opened Protocol

  ghost predicate LoopInv<A, R>(cfg: Config<A>, lp: Loop<A, R>) {
    StreamInv(cfg, lp) && OutcomeInv(cfg, lp) && ActorInv(cfg, lp) && ModeInv(cfg, lp) && ExitInv(cfg, lp)
    && TraceInv(cfg, lp)
  }

  /** The stream items among the turns, in turn order. */
  function ItemsOf<A, R>(turns: seq<Turn<A, R>>): seq<nat> {
    if turns == [] then []
    else
      var t := turns[|turns| - 1];
      ItemsOf(turns[..|turns| - 1]) + if t.source.Stream? && t.work.Run? then [t.source.item] else []
  }

  /** Stream items were handled one turn each, in order; `finished` came at most once, after the last. */
  ghost predicate StreamOrder<A, R>(onStream: bool, turns: seq<Turn<A, R>>, items: nat, open: bool) {
    && ItemsOf(turns) == seq(items, i => i)
    && (forall p :: 0 <= p < |turns| && turns[p].source.Stream? ==>
          onStream && (turns[p].work.Run? || turns[p].work.Conclude?))
    && (forall p :: 0 <= p < |turns| && turns[p].work.Conclude? ==> turns[p].source == Stream(items) && !open)
    && (forall p, q :: 0 <= p < q < |turns| && turns[p].work.Conclude? ==> !turns[q].source.Stream?)
  }

  ghost predicate StreamInv<A, R>(cfg: Config<A>, lp: Loop<A, R>) {
    StreamOrder(cfg.onStream, lp.turns, lp.items, lp.streamOpen)
  }

  /** Only the last turn can be in progress; every completed one ran all its steps and answered their result. */
  ghost predicate OutcomeInv<A, R>(cfg: Config<A>, lp: Loop<A, R>) {
    EndsWell(cfg, lp) && AllGood(cfg, lp.turns, lp.phase.Busy?)
  }

  /** What the phase says about the last turn. */
  ghost predicate EndsWell<A, R>(cfg: Config<A>, lp: Loop<A, R>) {
    && (lp.phase.Busy? ==> lp.turns != [])
    && (lp.phase.Idle? || lp.phase.Busy? ==> lp.turns == [] || Continues(cfg, Last(lp)))
    && (lp.phase.Cancelling? ==> lp.turns != [] && Last(lp).outcome.Cut?)
    && (lp.exit.ByStop? ==> lp.turns != [] && Last(lp).work.Halt?)
    && (lp.exit.TimedOut? ==> lp.turns != [] && Last(lp).outcome.Cut? && cfg.failOnTimeout)
    && (lp.exit.RestartFailed? ==> lp.turns != [] && Last(lp).work.Refresh? && Last(lp).outcome.Broken?)
    && (lp.exit.StartFailed? ==> lp.turns == [])
  }

  ghost predicate AllGood<A, R>(cfg: Config<A>, turns: seq<Turn<A, R>>, busy: bool) {
    forall p :: 0 <= p < |turns| ==> GoodTurn(cfg, turns, p, busy)
  }

  /** A turn after which the loop goes on. */
  predicate Continues<A, R>(cfg: Config<A>, t: Turn<A, R>) {
    !t.work.Halt? && !t.outcome.Broken? && !(t.outcome.Cut? && cfg.failOnTimeout)
  }

  ghost predicate GoodTurn<A, R>(cfg: Config<A>, turns: seq<Turn<A, R>>, p: nat, busy: bool)
    requires p < |turns|
  {
    Shaped(cfg, turns[p], p == |turns| - 1, busy) && Answered(cfg, turns, p)
  }

  /** What a turn looks like, depending on whether it is the last one and whether that is in progress. */
  ghost predicate Shaped<A, R>(cfg: Config<A>, t: Turn<A, R>, last: bool, busy: bool) {
    && (t.outcome.Pending? <==> last && busy)
    && (t.work.Run? ==> t.ran <= |t.work.script.steps|)
    && (t.work.Refresh? && t.outcome.Pending? ==> t.ran <= 1 && !cfg.strategy.NonRestartable? && !cfg.onStream)
    && (t.work.Conclude? && t.outcome.Pending? ==> t.ran == 0)
    && (t.work.Halt? ==> t.outcome == Completed(None))
    && (t.work.Run? && t.outcome.Completed? ==> t.ran == |t.work.script.steps|)
    && (t.outcome.Cut? ==> t.work.Run? && cfg.timeout)
    && (t.work.Refresh? && t.outcome.Completed? ==> !cfg.onStream && t.ran == if cfg.strategy.NonRestartable? then 0 else 2)
    && (t.work.Refresh? && t.outcome.Broken? ==> t.ran <= 1)
    && (t.work.Conclude? && t.outcome.Completed? ==> t.ran == 1)
    && (!Continues(cfg, t) ==> last)
  }

  /** A completed handler answered from the replay up to and including its own turn. */
  ghost predicate Answered<A, R>(cfg: Config<A>, turns: seq<Turn<A, R>>, p: nat)
    requires p < |turns|
  {
    var t := turns[p];
    t.work.Run? && t.outcome.Completed? ==>
      t.outcome.answer == Some(t.work.script.answer(Replay(cfg, turns[..p + 1])))
  }

  /** The actor value is the sequential replay of the turns taken so far. */
  ghost predicate ActorInv<A, R>(cfg: Config<A>, lp: Loop<A, R>) {
    match lp.phase
    case Spawned | Booting => lp.actor == cfg.init && lp.turns == []
    case Idle | Busy | Closing | Cancelling => lp.actor == Replay(cfg, lp.turns)
    case Notifying | Unwinding | Ended =>
      Normal(lp.exit) ==> lp.actor == cfg.hooks.stopped(Replay(cfg, lp.turns))
  }

  /** The mode of the lifecycle automaton that each phase of the loop stands for. */
  ghost predicate ModeInv<A, R>(cfg: Config<A>, lp: Loop<A, R>) {
    var m := L.Run(lp.trace);
    match lp.phase
    case Spawned => m == L.Init
    case Booting | Idle => m == L.Up
    case Busy => m == if lp.turns != [] && Last(lp).work.Refresh? && Last(lp).ran == 0 then L.Down else L.Up
    case Closing | Notifying => m == L.Down
    case Cancelling => m == L.Aborted
    case Unwinding | Ended =>
      match lp.exit
      case ByStop | ByChannelEnd => m == L.Down
      case StartFailed | RestartFailed => m == L.Up
      case TimedOut => m == L.Aborted
      case _ => m != L.Illegal && m != L.Init
  }

  /** The hooks one turn invokes, as far as it got. */
  function TurnHooks<A, R>(cfg: Config<A>, t: Turn<A, R>): seq<L.Hook> {
    match t.work
    case Run(_) => if t.outcome.Cut? && cfg.failOnTimeout then [L.Handling, L.Cancelled] else [L.Handling]
    case Refresh =>
      if cfg.strategy.NonRestartable? || cfg.onStream then []
      else if t.ran == 0 then [L.Stopped]
      else [L.Stopped, L.Started]
    case Conclude => [L.Finished]
    case Halt => [L.Stopped]
  }

  /** The hooks a started actor invokes in the course of its turns. */
  function TraceOf<A, R>(cfg: Config<A>, turns: seq<Turn<A, R>>): seq<L.Hook> {
    if turns == [] then [L.Started]
    else TraceOf(cfg, turns[..|turns| - 1]) + TurnHooks(cfg, turns[|turns| - 1])
  }

  /** The hook trace is the one its turns call for, and `stopped` once more at the end of the channel. */
  ghost predicate TraceInv<A, R>(cfg: Config<A>, lp: Loop<A, R>) {
    if lp.phase.Spawned? then lp.trace == []
    else
      || (lp.trace == TraceOf(cfg, lp.turns) && !lp.exit.ByChannelEnd?)
      || (lp.trace == TraceOf(cfg, lp.turns) + [L.Stopped] && (lp.exit.ByChannelEnd? || lp.exit.Panicked?))
  }

  /** Flag, one-shot and the resources of the loop, phase by phase. */
  ghost predicate ExitInv<A, R>(cfg: Config<A>, lp: Loop<A, R>) {
    && lp.flag == lp.notifier.Armed?
    && lp.shots == (if lp.notifier.Gone? then 1 else 0)
    && match lp.phase
       case Spawned | Booting | Idle | Busy => lp.exit.Running? && lp.notifier.Armed? && lp.rx && lp.ctx
       case Closing => Normal(lp.exit) && lp.notifier.Armed? && lp.rx && lp.ctx
       case Cancelling => lp.exit.TimedOut? && lp.notifier.Armed? && lp.rx && lp.ctx
       case Notifying => Normal(lp.exit) && !lp.notifier.Gone? && lp.rx && lp.ctx
       case Unwinding => !lp.exit.Running? && (Normal(lp.exit) ==> lp.notifier.Gone?)
       case Ended => !lp.exit.Running? && lp.notifier.Gone? && !lp.rx && !lp.ctx
  }

  lemma InitLoop<A, R>(cfg: Config<A>)
    ensures LoopInv<A, R>(cfg, InitState<A, R>(cfg).loop)
  {
    var lp := InitState<A, R>(cfg).loop;
    assert ItemsOf(lp.turns) == seq(0, i => i);
  }

  // ----- how the list of turns changes -----

  /** The last turn progressed or ended. */
  ghost predicate Revised<A, R>(us: seq<Turn<A, R>>, vs: seq<Turn<A, R>>) {
    && |vs| == |us| > 0 && vs == us[|us| - 1 := vs[|us| - 1]]
    && vs[|us| - 1].source == us[|us| - 1].source && vs[|us| - 1].work == us[|us| - 1].work
  }

  ghost predicate Appended<A, R>(us: seq<Turn<A, R>>, vs: seq<Turn<A, R>>) {
    |vs| == |us| + 1 && vs == us + [vs[|us|]] && vs[|us|].ran == 0
  }

  /** The labels that only update the turn in progress. */
  predicate Revises<A, R>(l: Label<A, R>) {
    l.Micro? || l.Complete? || l.Timeout? || l.RestartStopped? || l.RestartStarted? || l.FinishedDone?
  }

  predicate Appends<A, R>(l: Label<A, R>) {
    l.Recv? || l.StreamItem? || l.StreamEnd?
  }

  /** The turn in progress after a label that revises it. */
  ghost function RevisedTurn<A, R>(t: Turn<A, R>, actor: A, l: Label<A, R>): Turn<A, R> {
    match l
    case Micro => t.(ran := t.ran + 1)
    case RestartStopped => t.(ran := 1)
    case RestartStarted(ok) => if ok then t.(ran := 2, outcome := Completed(None)) else t.(outcome := Broken)
    case FinishedDone => t.(ran := 1, outcome := Completed(None))
    case Complete => t.(outcome := if t.work.Run? then Completed(Some(t.work.script.answer(actor))) else Completed(None))
    case Timeout => t.(outcome := Cut)
    case _ => t.(outcome := Broken)
  }

  /** The hooks that such a label starts, and the actor, phase and exit it leaves. */
  function RevisedHooks<A, R>(cfg: Config<A>, l: Label<A, R>): seq<L.Hook> {
    if l.Timeout? && cfg.failOnTimeout then [L.Cancelled] else if l.RestartStopped? then [L.Started] else []
  }

  ghost function RevisedActor<A, R>(cfg: Config<A>, t: Turn<A, R>, actor: A, l: Label<A, R>): A {
    match l
    case Micro => if t.work.Run? && t.ran < |t.work.script.steps| then t.work.script.steps[t.ran](actor) else actor
    case RestartStopped => RefreshStage(cfg, 1, actor)
    case RestartStarted(ok) => if ok then cfg.hooks.started(actor) else actor
    case FinishedDone => cfg.hooks.finished(actor)
    case _ => actor
  }

  function RevisedPhase<A, R>(cfg: Config<A>, l: Label<A, R>): Phase {
    match l
    case Micro => Busy
    case RestartStopped => Busy
    case Complete => Idle
    case FinishedDone => Idle
    case Timeout => if cfg.failOnTimeout then Cancelling else Idle
    case RestartStarted(ok) => if ok then Idle else Unwinding
    case _ => Unwinding
  }

  function RevisedExit<A, R>(cfg: Config<A>, e: Exit, l: Label<A, R>): Exit {
    match l
    case Timeout => if cfg.failOnTimeout then TimedOut else e
    case RestartStarted(ok) => if ok then e else RestartFailed
    case Panic => Panicked
    case _ => e
  }

  ghost function RevisedLoop<A, R>(cfg: Config<A>, lp: Loop<A, R>, l: Label<A, R>): Loop<A, R>
    requires lp.turns != []
  {
    Loop(RevisedPhase(cfg, l), RevisedExit(cfg, lp.exit, l), RevisedActor(cfg, Last(lp), lp.actor, l),
         lp.turns[|lp.turns| - 1 := RevisedTurn(Last(lp), lp.actor, l)], lp.trace + RevisedHooks(cfg, l),
         lp.flag, lp.notifier, lp.shots, lp.rx, lp.ctx, lp.items, lp.streamOpen)
  }

  lemma HandlerForm<A, R>(cfg: Config<A>, lp: Loop<A, R>, led: Ledger<Payload<A, R>>, l: Label<A, R>)
    requires LoopLabel(l) && LoopEnabled(cfg, lp, led.box, l) && Working(lp)
    requires l.Micro? || l.Complete? || l.FinishedDone? || l.Panic?
    ensures LoopNext(cfg, lp, led, l) == RevisedLoop(cfg, lp, l)
  {
    hide TakePayload, RefreshDown, RefreshUp, RunTimeout, NewTurn, InvokeHook;
    assert lp.trace + [] == lp.trace;
  }

  lemma StageForm<A, R>(cfg: Config<A>, lp: Loop<A, R>, led: Ledger<Payload<A, R>>, l: Label<A, R>)
    requires LoopLabel(l) && LoopEnabled(cfg, lp, led.box, l) && Working(lp)
    requires l.Timeout? || l.RestartStopped? || l.RestartStarted?
    ensures LoopNext(cfg, lp, led, l) == RevisedLoop(cfg, lp, l)
  {
    hide TakePayload, RefreshStage, RunMicro, NewTurn;
    assert lp.trace + [] == lp.trace;
  }

  /** A label that revises the turn in progress changes these five fields of the loop and no other. */
  lemma RevisionForm<A, R>(cfg: Config<A>, lp: Loop<A, R>, led: Ledger<Payload<A, R>>, l: Label<A, R>)
    requires LoopLabel(l) && LoopEnabled(cfg, lp, led.box, l) && (Revises(l) || l.Panic?) && Working(lp)
    ensures LoopNext(cfg, lp, led, l) == RevisedLoop(cfg, lp, l)
  {
    hide LoopEnabled, LoopNext, RevisedLoop;
    if l.Timeout? || l.RestartStopped? || l.RestartStarted? {
      StageForm(cfg, lp, led, l);
    } else {
      HandlerForm(cfg, lp, led, l);
    }
  }

  lemma RevisedWorks<A, R>(cfg: Config<A>, lp: Loop<A, R>, led: Ledger<Payload<A, R>>, l: Label<A, R>)
    requires LoopLabel(l) && LoopEnabled(cfg, lp, led.box, l) && Revises(l)
    ensures Working(lp)
  {
  }

  lemma ReviseTurns<A, R>(cfg: Config<A>, lp: Loop<A, R>, led: Ledger<Payload<A, R>>, l: Label<A, R>)
    requires LoopLabel(l) && LoopEnabled(cfg, lp, led.box, l) && (Revises(l) || (l.Panic? && Working(lp)))
    ensures var np := LoopNext(cfg, lp, led, l);
            && Working(lp) && Revised(lp.turns, np.turns)
            && np.items == lp.items && np.streamOpen == lp.streamOpen
            && (if l.Micro? then Last(np) == Last(lp).(ran := Last(lp).ran + 1)
                else if l.RestartStopped? then Last(np) == Last(lp).(ran := 1)
                else if l.RestartStarted? && l.ok then Last(np) == Last(lp).(ran := 2, outcome := Completed(None))
                else if l.FinishedDone? then Last(np) == Last(lp).(ran := 1, outcome := Completed(None))
                else Last(np).ran == Last(lp).ran)
  {
    hide LoopNext, LoopEnabled;
    if Revises(l) {
      RevisedWorks(cfg, lp, led, l);
    }
    RevisionForm(cfg, lp, led, l);
    hide RevisedActor, RevisedPhase, RevisedExit, RevisedHooks;
  }

  ghost function TakenOutcome<A, R>(cfg: Config<A>, p: Payload<A, R>): Outcome<R> {
    if p.Task? then Pending
    else if p.Restart? && cfg.onStream then Broken
    else if p.Restart? && !cfg.strategy.NonRestartable? then Pending
    else Completed(None)
  }

  ghost function TakenTurn<A, R>(cfg: Config<A>, p: Payload<A, R>, e: nat): Turn<A, R> {
    Turn(Source.Mailbox(e), WorkOf(p), 0, TakenOutcome(cfg, p))
  }

  /** Where the loop goes with a dequeued payload. */
  function PhaseTaken<A, R>(cfg: Config<A>, phase: Phase, p: Payload<A, R>): Phase {
    match p
    case Stop => Closing
    case Restart => if cfg.onStream then Unwinding else if cfg.strategy.NonRestartable? then phase else Busy
    case Task(_, _) => Busy
  }

  ghost function TakenLoop<A, R>(cfg: Config<A>, lp: Loop<A, R>, p: Payload<A, R>, e: nat): Loop<A, R> {
    Loop(PhaseTaken(cfg, lp.phase, p),
         if p.Stop? then ByStop else if p.Restart? && cfg.onStream then Panicked else lp.exit,
         lp.actor, lp.turns + [TakenTurn(cfg, p, e)], lp.trace + TurnHooks(cfg, TakenTurn(cfg, p, e)),
         lp.flag, lp.notifier, lp.shots, lp.rx, lp.ctx, lp.items, lp.streamOpen)
  }

  /** A dequeued payload opens one turn, whose first hook it starts, and changes phase and exit besides. */
  lemma TakenForm<A, R>(cfg: Config<A>, lp: Loop<A, R>, p: Payload<A, R>, e: nat)
    ensures TakePayload(cfg, lp, p, e) == TakenLoop(cfg, lp, p, e)
  {
    assert lp.trace + [] == lp.trace;
  }

  lemma RecvTurn<A, R>(cfg: Config<A>, lp: Loop<A, R>, p: Payload<A, R>, e: nat)
    ensures var np := TakePayload(cfg, lp, p, e);
            && Appended(lp.turns, np.turns)
            && Last(np).source == Source.Mailbox(e) && Last(np).work == WorkOf(p)
            && np.items == lp.items && np.streamOpen == lp.streamOpen
            && np.rx == lp.rx && np.shots == lp.shots && np.flag == lp.flag
  {
    hide TakePayload, PhaseTaken, TakenOutcome, TurnHooks;
    TakenForm(cfg, lp, p, e);
  }

  lemma StreamTurn<A, R>(cfg: Config<A>, lp: Loop<A, R>, led: Ledger<Payload<A, R>>, l: Label<A, R>)
    requires LoopLabel(l) && LoopEnabled(cfg, lp, led.box, l) && (l.StreamItem? || l.StreamEnd?)
    ensures var np := LoopNext(cfg, lp, led, l);
            && Appended(lp.turns, np.turns)
            && lp.streamOpen && cfg.onStream && np.streamOpen == l.StreamItem?
            && Last(np) == Turn(Stream(lp.items), if l.StreamItem? then Run(l.script) else Conclude, 0, Pending)
            && np.items == lp.items + if l.StreamItem? then 1 else 0
  {
    hide TakePayload, RefreshStage, RunTimeout, RunMicro, RefreshDown, RefreshUp, EndTurn;
  }

  lemma AppendTurns<A, R>(cfg: Config<A>, lp: Loop<A, R>, led: Ledger<Payload<A, R>>, l: Label<A, R>)
    requires LoopLabel(l) && LoopEnabled(cfg, lp, led.box, l) && Appends(l)
    ensures Appended(lp.turns, LoopNext(cfg, lp, led, l).turns)
  {
    hide TakePayload, RunTimeout, RunMicro, RefreshDown, RefreshUp, EndTurn;
    if l.Recv? {
      RecvTurn(cfg, lp, led.box.queue[0], |led.fates|);
    } else {
      StreamTurn(cfg, lp, led, l);
    }
  }

  lemma KeepTurns<A, R>(cfg: Config<A>, lp: Loop<A, R>, led: Ledger<Payload<A, R>>, l: Label<A, R>)
    requires LoopLabel(l) && LoopEnabled(cfg, lp, led.box, l) && !Revises(l) && !Appends(l) && !(l.Panic? && Working(lp))
    ensures var np := LoopNext(cfg, lp, led, l);
            np.turns == lp.turns && np.items == lp.items && np.streamOpen == lp.streamOpen
  {
    hide TakePayload, RefreshStage;
  }

  // ----- streams -----

  lemma StreamRevised<A, R>(onStream: bool, us: seq<Turn<A, R>>, vs: seq<Turn<A, R>>, items: nat, open: bool)
    requires StreamOrder(onStream, us, items, open) && Revised(us, vs)
    ensures StreamOrder(onStream, vs, items, open)
  {
    assert vs[..|us| - 1] == us[..|us| - 1];
    assert forall p :: 0 <= p < |vs| ==> vs[p].source == us[p].source && vs[p].work == us[p].work;
  }

  lemma ItemsAppended<A, R>(us: seq<Turn<A, R>>, t: Turn<A, R>)
    ensures ItemsOf(us + [t]) == ItemsOf(us) + if t.source.Stream? && t.work.Run? then [t.source.item] else []
  {
    assert (us + [t])[..|us|] == us;
  }

  lemma StreamAppended<A, R>(onStream: bool, us: seq<Turn<A, R>>, vs: seq<Turn<A, R>>, items: nat, open: bool)
    requires StreamOrder(onStream, us, items, open) && Appended(us, vs)
    ensures var t := vs[|us|];
            && (t.source.Mailbox? && !t.work.Conclude? ==> StreamOrder(onStream, vs, items, open))
            && (t.source == Stream(items) && onStream && open ==>
                  && (t.work.Run? ==> StreamOrder(onStream, vs, items + 1, true))
                  && (t.work.Conclude? ==> StreamOrder(onStream, vs, items, false)))
  {
    ItemsAppended(us, vs[|us|]);
  }

  lemma StreamStep<A, R>(cfg: Config<A>, lp: Loop<A, R>, led: Ledger<Payload<A, R>>, l: Label<A, R>)
    requires StreamInv(cfg, lp) && LoopLabel(l) && LoopEnabled(cfg, lp, led.box, l)
    ensures StreamInv(cfg, LoopNext(cfg, lp, led, l))
  {
    hide StreamOrder, TakePayload;
    var np := LoopNext(cfg, lp, led, l);
    if Appends(l) {
      if l.Recv? {
        RecvTurn(cfg, lp, led.box.queue[0], |led.fates|);
      } else {
        StreamTurn(cfg, lp, led, l);
      }
      StreamAppended(cfg.onStream, lp.turns, np.turns, lp.items, lp.streamOpen);
    } else {
      hide LoopEnabled, LoopNext;
      if Revises(l) || (l.Panic? && Working(lp)) {
        ReviseTurns(cfg, lp, led, l);
        StreamRevised(cfg.onStream, lp.turns, np.turns, lp.items, lp.streamOpen);
      } else {
        KeepTurns(cfg, lp, led, l);
      }
    }
  }

  // ----- outcomes and the actor -----

  lemma GoodRevised<A, R>(cfg: Config<A>, us: seq<Turn<A, R>>, vs: seq<Turn<A, R>>, busy: bool)
    requires Revised(us, vs) && AllGood(cfg, us, true) && GoodTurn(cfg, vs, |us| - 1, busy)
    ensures AllGood(cfg, vs, busy)
  {
    forall p | 0 <= p < |vs| - 1
      ensures GoodTurn(cfg, vs, p, busy)
    {
      assert GoodTurn(cfg, us, p, true);
      assert vs[..p + 1] == us[..p + 1];
    }
  }

  lemma GoodAppended<A, R>(cfg: Config<A>, us: seq<Turn<A, R>>, vs: seq<Turn<A, R>>, busy: bool)
    requires Appended(us, vs) && AllGood(cfg, us, false) && (us == [] || Continues(cfg, us[|us| - 1]))
    requires GoodTurn(cfg, vs, |us|, busy)
    ensures AllGood(cfg, vs, busy)
  {
    forall p | 0 <= p < |us|
      ensures GoodTurn(cfg, vs, p, busy)
    {
      assert GoodTurn(cfg, us, p, false);
      assert vs[..p + 1] == us[..p + 1];
    }
  }

  lemma ReplayRevised<A, R>(cfg: Config<A>, us: seq<Turn<A, R>>, vs: seq<Turn<A, R>>)
    requires Revised(us, vs)
    ensures Replay(cfg, us) == TurnEffect(cfg, us[|us| - 1], Replay(cfg, us[..|us| - 1]))
    ensures Replay(cfg, vs) == TurnEffect(cfg, vs[|us| - 1], Replay(cfg, us[..|us| - 1]))
  {
    assert vs[..|us| - 1] == us[..|us| - 1];
  }

  lemma ReplayAppended<A, R>(cfg: Config<A>, us: seq<Turn<A, R>>, vs: seq<Turn<A, R>>)
    requires Appended(us, vs)
    ensures Replay(cfg, vs) == Replay(cfg, us)
  {
    ReplaySnoc(cfg, us, vs[|us|]);
  }

  lemma ActorRevised<A, R>(cfg: Config<A>, lp: Loop<A, R>, led: Ledger<Payload<A, R>>, l: Label<A, R>)
    requires Working(lp) && lp.actor == Replay(cfg, lp.turns) && GoodTurn(cfg, lp.turns, |lp.turns| - 1, true)
    requires LoopLabel(l) && LoopEnabled(cfg, lp, led.box, l) && Revises(l)
    ensures var np := LoopNext(cfg, lp, led, l);
            np.phase.Idle? || np.phase.Busy? || np.phase.Cancelling? ==> np.actor == Replay(cfg, np.turns)
  {
    hide Replay, LoopNext, RevisedHooks, RevisedTurn;
    RevisionForm(cfg, lp, led, l);
    var np := LoopNext(cfg, lp, led, l);
    var pre := Replay(cfg, lp.turns[..|lp.turns| - 1]);
    ReviseTurns(cfg, lp, led, l);
    ReplayRevised(cfg, lp.turns, np.turns);
    if l.Micro? {
      hide RunSteps;
      RunStepsSnoc(Last(lp).work.script.steps, Last(lp).ran, pre);
    } else if !l.RestartStopped? && !l.RestartStarted? && !l.FinishedDone? {
      hide RunSteps, RefreshStage;
    }
  }

  lemma ActorOther<A, R>(cfg: Config<A>, lp: Loop<A, R>, led: Ledger<Payload<A, R>>, l: Label<A, R>)
    requires ActorInv(cfg, lp) && ExitInv(cfg, lp) && LoopLabel(l) && LoopEnabled(cfg, lp, led.box, l)
    requires !Appends(l) && !Revises(l)
    ensures ActorInv(cfg, LoopNext(cfg, lp, led, l))
  {
    KeepsOrPanics(cfg, lp, led, l);
    hide Replay, TakePayload, RunTimeout, RefreshDown, RefreshUp, RunMicro, SetLast;
  }

  lemma ActorTaken<A, R>(cfg: Config<A>, lp: Loop<A, R>, led: Ledger<Payload<A, R>>, l: Label<A, R>)
    requires ActorInv(cfg, lp) && LoopLabel(l) && LoopEnabled(cfg, lp, led.box, l) && Appends(l)
    ensures ActorInv(cfg, LoopNext(cfg, lp, led, l))
  {
    hide Replay, LoopNext, LoopEnabled, Appended;
    AppendTurns(cfg, lp, led, l);
    ReplayAppended(cfg, lp.turns, LoopNext(cfg, lp, led, l).turns);
    ActorAppended(cfg, lp, led, l);
  }

  lemma ActorStep<A, R>(cfg: Config<A>, lp: Loop<A, R>, led: Ledger<Payload<A, R>>, l: Label<A, R>)
    requires OutcomeInv(cfg, lp) && ActorInv(cfg, lp) && ExitInv(cfg, lp) && LoopLabel(l) && LoopEnabled(cfg, lp, led.box, l)
    ensures ActorInv(cfg, LoopNext(cfg, lp, led, l))
  {
    hide LoopNext, Replay, TurnEffect, LoopEnabled;
    if Appends(l) {
      hide OutcomeInv, ExitInv, ActorInv;
      ActorTaken(cfg, lp, led, l);
    } else if Revises(l) {
      ReviseTurns(cfg, lp, led, l);
      hide Revised, ExitInv;
      assert GoodTurn(cfg, lp.turns, |lp.turns| - 1, true);
      hide OutcomeInv, GoodTurn;
      ActorRevised(cfg, lp, led, l);
      RevisionRuns(cfg, lp, led, l);
    } else {
      hide OutcomeInv, ExitInv, ActorInv;
      ActorOther(cfg, lp, led, l);
    }
  }

  /** A revised turn leaves the loop running, cancelling or, after a failed restart, unwinding. */
  lemma RevisionRuns<A, R>(cfg: Config<A>, lp: Loop<A, R>, led: Ledger<Payload<A, R>>, l: Label<A, R>)
    requires LoopLabel(l) && LoopEnabled(cfg, lp, led.box, l) && Revises(l)
    ensures var np := LoopNext(cfg, lp, led, l);
            && (np.phase.Idle? || np.phase.Busy? || np.phase.Cancelling? || np.phase.Unwinding?)
            && (np.phase.Unwinding? ==> np.exit.RestartFailed?)
  {
    hide LoopNext, LoopEnabled;
    RevisedWorks(cfg, lp, led, l);
    RevisionForm(cfg, lp, led, l);
    hide RevisedActor, RevisedTurn, RevisedHooks;
  }

  lemma ActorAppended<A, R>(cfg: Config<A>, lp: Loop<A, R>, led: Ledger<Payload<A, R>>, l: Label<A, R>)
    requires LoopLabel(l) && LoopEnabled(cfg, lp, led.box, l) && Appends(l)
    ensures var np := LoopNext(cfg, lp, led, l);
            && lp.phase.Idle? && np.actor == lp.actor
            && (np.phase.Idle? || np.phase.Busy? || np.phase.Closing? || np.phase.Unwinding?)
            && (np.phase.Unwinding? ==> np.exit.Panicked?)
  {
  }

  lemma KeepsOrPanics<A, R>(cfg: Config<A>, lp: Loop<A, R>, led: Ledger<Payload<A, R>>, l: Label<A, R>)
    requires LoopLabel(l) && LoopEnabled(cfg, lp, led.box, l) && !Revises(l) && !Appends(l)
    ensures l.Panic? || LoopNext(cfg, lp, led, l).turns == lp.turns
  {
    if !l.Panic? {
      KeepTurns(cfg, lp, led, l);
    }
  }

  /** The turn a dequeued payload begins, and where the loop goes with it. */
  lemma TakenLast<A, R>(cfg: Config<A>, lp: Loop<A, R>, p: Payload<A, R>, e: nat)
    requires lp.phase.Idle? && lp.exit.Running?
    ensures var np := TakePayload(cfg, lp, p, e);
            && np.turns != [] && Last(np) == Turn(Source.Mailbox(e), WorkOf(p), 0, TakenOutcome(cfg, p))
            && (np.phase.Busy? <==> TakenOutcome(cfg, p).Pending?)
            && (np.phase.Idle? ==> p.Restart? && TakenOutcome(cfg, p).Completed?)
            && !np.phase.Cancelling? && !np.exit.TimedOut? && !np.exit.RestartFailed? && !np.exit.StartFailed?
            && (np.exit.ByStop? ==> p.Stop?)
  {
    hide TakePayload, TurnHooks;
    TakenForm(cfg, lp, p, e);
  }

  /** A dequeued payload's turn is well formed, and the loop goes on after it unless it was a Stop or a panic. */
  lemma TakenGood<A, R>(cfg: Config<A>, lp: Loop<A, R>, p: Payload<A, R>, e: nat)
    requires lp.phase.Idle? && lp.exit.Running?
    ensures var np := TakePayload(cfg, lp, p, e);
            && np.turns != [] && Shaped(cfg, Last(np), true, np.phase.Busy?) && EndsWell(cfg, np)
            && !(Last(np).work.Run? && Last(np).outcome.Completed?)
  {
    hide TakePayload;
    TakenLast(cfg, lp, p, e);
  }

  lemma AppendedGood<A, R>(cfg: Config<A>, lp: Loop<A, R>, led: Ledger<Payload<A, R>>, l: Label<A, R>)
    requires LoopLabel(l) && LoopEnabled(cfg, lp, led.box, l) && Appends(l) && lp.exit.Running?
    ensures var np := LoopNext(cfg, lp, led, l);
            && np.turns != [] && Shaped(cfg, Last(np), true, np.phase.Busy?) && EndsWell(cfg, np)
            && !(Last(np).work.Run? && Last(np).outcome.Completed?)
  {
    hide RunTimeout, RunMicro, RefreshDown, RefreshUp, EndTurn, TakePayload, Shaped, EndsWell;
    if l.Recv? {
      TakenGood(cfg, lp, led.box.queue[0], |led.fates|);
    } else {
      StreamGood(cfg, lp, led, l);
    }
  }

  lemma StreamGood<A, R>(cfg: Config<A>, lp: Loop<A, R>, led: Ledger<Payload<A, R>>, l: Label<A, R>)
    requires LoopLabel(l) && LoopEnabled(cfg, lp, led.box, l) && (l.StreamItem? || l.StreamEnd?) && lp.exit.Running?
    ensures var np := LoopNext(cfg, lp, led, l);
            && np.turns != [] && Shaped(cfg, Last(np), true, np.phase.Busy?) && EndsWell(cfg, np)
            && Last(np).outcome.Pending?
  {
    StreamTurn(cfg, lp, led, l);
    assert LoopNext(cfg, lp, led, l).phase.Busy? && LoopNext(cfg, lp, led, l).exit.Running? by {
      hide TakePayload, RefreshStage, RunTimeout, RunMicro, RefreshDown, RefreshUp, EndTurn;
    }
    hide LoopNext;
  }

  lemma OutcomeAppended<A, R>(cfg: Config<A>, lp: Loop<A, R>, led: Ledger<Payload<A, R>>, l: Label<A, R>)
    requires OutcomeInv(cfg, lp) && ExitInv(cfg, lp) && LoopLabel(l) && LoopEnabled(cfg, lp, led.box, l) && Appends(l)
    ensures OutcomeInv(cfg, LoopNext(cfg, lp, led, l))
  {
    var np := LoopNext(cfg, lp, led, l);
    assert lp.phase.Idle? && lp.exit.Running?;
    hide LoopNext, LoopEnabled, ExitInv, Shaped, AllGood, Replay;
    AppendTurns(cfg, lp, led, l);
    AppendedGood(cfg, lp, led, l);
    GoodAppended(cfg, lp.turns, np.turns, np.phase.Busy?);
  }

  lemma RevisionOutcome<A, R>(cfg: Config<A>, lp: Loop<A, R>, led: Ledger<Payload<A, R>>, l: Label<A, R>)
    requires LoopLabel(l) && LoopEnabled(cfg, lp, led.box, l) && Working(lp) && (Revises(l) || l.Panic?)
    ensures var np := LoopNext(cfg, lp, led, l);
            np.turns != [] && Last(np).outcome == RevisedTurn(Last(lp), lp.actor, l).outcome
  {
    hide LoopNext, LoopEnabled;
    RevisionForm(cfg, lp, led, l);
    hide RevisedActor, RevisedPhase, RevisedExit, RevisedHooks;
  }

  lemma RevisionPhase<A, R>(cfg: Config<A>, lp: Loop<A, R>, led: Ledger<Payload<A, R>>, l: Label<A, R>)
    requires LoopLabel(l) && LoopEnabled(cfg, lp, led.box, l) && Working(lp) && (Revises(l) || l.Panic?)
    requires lp.exit.Running?
    ensures var np := LoopNext(cfg, lp, led, l);
            && (np.phase.Busy? <==> l.Micro? || l.RestartStopped?)
            && (np.phase.Cancelling? ==> l.Timeout?)
            && (np.phase.Idle? ==> l.Timeout? || l.Complete? || l.FinishedDone? || (l.RestartStarted? && l.ok))
            && !np.exit.ByStop? && !np.exit.StartFailed?
            && (np.phase.Idle? && l.Timeout? ==> !cfg.failOnTimeout)
            && (np.exit.TimedOut? ==> l.Timeout? && cfg.failOnTimeout) && (np.exit.RestartFailed? ==> l.RestartStarted? && !l.ok)
  {
    hide LoopNext, LoopEnabled;
    RevisionForm(cfg, lp, led, l);
    hide RevisedActor, RevisedTurn, RevisedHooks;
  }

  /** The turn a label revises stays well formed. */
  lemma RevisedGood<A, R>(cfg: Config<A>, lp: Loop<A, R>, led: Ledger<Payload<A, R>>, l: Label<A, R>)
    requires Working(lp) && lp.exit.Running? && Shaped(cfg, Last(lp), true, true) && Continues(cfg, Last(lp))
    requires LoopLabel(l) && LoopEnabled(cfg, lp, led.box, l) && (Revises(l) || l.Panic?)
    ensures var np := LoopNext(cfg, lp, led, l);
            && np.turns != [] && Shaped(cfg, Last(np), true, np.phase.Busy?) && EndsWell(cfg, np)
            && (Last(np).work.Run? && Last(np).outcome.Completed? ==>
                  l.Complete? && Last(np).outcome.answer == Some(Last(np).work.script.answer(lp.actor)))
  {
    ReviseTurns(cfg, lp, led, l);
    RevisionOutcome(cfg, lp, led, l);
    RevisionPhase(cfg, lp, led, l);
    hide LoopNext;
  }

  lemma OutcomeRevised<A, R>(cfg: Config<A>, lp: Loop<A, R>, led: Ledger<Payload<A, R>>, l: Label<A, R>)
    requires OutcomeInv(cfg, lp) && ActorInv(cfg, lp) && ExitInv(cfg, lp) && LoopLabel(l) && LoopEnabled(cfg, lp, led.box, l)
    requires Revises(l) || (l.Panic? && Working(lp))
    ensures OutcomeInv(cfg, LoopNext(cfg, lp, led, l))
  {
    var np := LoopNext(cfg, lp, led, l);
    LastGood(cfg, lp);
    ReviseTurns(cfg, lp, led, l);
    CompletedActor(cfg, lp, led, l);
    hide LoopNext, LoopEnabled, AllGood, Shaped, Replay;
    RevisedGood(cfg, lp, led, l);
    assert np.turns[..|np.turns|] == np.turns;
    GoodRevised(cfg, lp.turns, np.turns, np.phase.Busy?);
  }

  lemma CompletedActor<A, R>(cfg: Config<A>, lp: Loop<A, R>, led: Ledger<Payload<A, R>>, l: Label<A, R>)
    requires ActorInv(cfg, lp) && LoopLabel(l) && LoopEnabled(cfg, lp, led.box, l)
    ensures l.Complete? ==> lp.actor == Replay(cfg, LoopNext(cfg, lp, led, l).turns)
  {
    if l.Complete? {
      ReviseTurns(cfg, lp, led, l);
      hide TakePayload, RefreshStage, RunSteps, Replay;
      ReplayRevised(cfg, lp.turns, LoopNext(cfg, lp, led, l).turns);
    }
  }

  lemma OutcomeStep<A, R>(cfg: Config<A>, lp: Loop<A, R>, led: Ledger<Payload<A, R>>, l: Label<A, R>)
    requires OutcomeInv(cfg, lp) && ActorInv(cfg, lp) && ExitInv(cfg, lp) && LoopLabel(l) && LoopEnabled(cfg, lp, led.box, l)
    ensures OutcomeInv(cfg, LoopNext(cfg, lp, led, l))
  {
    if Appends(l) {
      OutcomeAppended(cfg, lp, led, l);
    } else if Revises(l) || (l.Panic? && Working(lp)) {
      OutcomeRevised(cfg, lp, led, l);
    } else {
      hide AllGood, Replay;
      KeepTurns(cfg, lp, led, l);
    }
  }

  lemma LastGood<A, R>(cfg: Config<A>, lp: Loop<A, R>)
    requires AllGood(cfg, lp.turns, lp.phase.Busy?) && lp.turns != []
    ensures GoodTurn(cfg, lp.turns, |lp.turns| - 1, lp.phase.Busy?)
  {
  }

  lemma TraceSnoc(trace: seq<L.Hook>)
    ensures forall h :: L.Run(trace + [h]) == L.Delta(L.Run(trace), h)
  {
    forall h | true
      ensures L.Run(trace + [h]) == L.Delta(L.Run(trace), h)
    {
      L.RunSnoc(trace, h);
    }
  }

  lemma ModeTake<A, R>(cfg: Config<A>, lp: Loop<A, R>, p: Payload<A, R>, e: nat)
    requires lp.phase.Idle? && ModeInv(cfg, lp)
    ensures ModeInv(cfg, TakePayload(cfg, lp, p, e))
  {
    TraceSnoc(lp.trace);
    hide L.Run;
  }

  lemma ModeRevised<A, R>(cfg: Config<A>, lp: Loop<A, R>, led: Ledger<Payload<A, R>>, l: Label<A, R>)
    requires ModeInv(cfg, lp) && LoopLabel(l) && LoopEnabled(cfg, lp, led.box, l) && Revises(l)
    ensures ModeInv(cfg, LoopNext(cfg, lp, led, l))
  {
    hide L.Run, LoopNext;
    TraceSnoc(lp.trace);
    RevisedWorks(cfg, lp, led, l);
    RevisionForm(cfg, lp, led, l);
    assert lp.trace + [] == lp.trace;
    hide RevisedActor;
  }

  lemma ModeOther<A, R>(cfg: Config<A>, lp: Loop<A, R>, led: Ledger<Payload<A, R>>, l: Label<A, R>)
    requires ModeInv(cfg, lp) && ExitInv(cfg, lp) && LoopLabel(l) && LoopEnabled(cfg, lp, led.box, l)
    requires !l.Recv? && !Revises(l) && !l.Panic?
    ensures ModeInv(cfg, LoopNext(cfg, lp, led, l))
  {
    TraceSnoc(lp.trace);
    hide L.Run, RunTimeout, RefreshDown, RefreshUp, RunMicro, TakePayload, EndTurn, SetLast, RefreshStage;
  }

  lemma ModePanic<A, R>(cfg: Config<A>, lp: Loop<A, R>, led: Ledger<Payload<A, R>>)
    requires ModeInv(cfg, lp) && ExitInv(cfg, lp) && LoopEnabled(cfg, lp, led.box, Label.Panic)
    ensures ModeInv(cfg, LoopNext(cfg, lp, led, Label.Panic))
  {
    hide L.Run;
  }

  lemma ModeStep<A, R>(cfg: Config<A>, lp: Loop<A, R>, led: Ledger<Payload<A, R>>, l: Label<A, R>)
    requires ModeInv(cfg, lp) && ExitInv(cfg, lp) && LoopLabel(l) && LoopEnabled(cfg, lp, led.box, l)
    ensures ModeInv(cfg, LoopNext(cfg, lp, led, l))
  {
    hide L.Run, RunTimeout, RefreshDown, RefreshUp, RunMicro, TakePayload, SetLast;
    if l.Recv? {
      ModeTake(cfg, lp, led.box.queue[0], |led.fates|);
      hide ModeInv;
    } else if Revises(l) {
      ModeRevised(cfg, lp, led, l);
      hide ModeInv, LoopNext;
    } else if l.Panic? {
      ModePanic(cfg, lp, led);
      hide ModeInv, LoopNext;
    } else {
      ModeOther(cfg, lp, led, l);
      hide ModeInv, LoopNext;
    }
  }

  lemma ExitRevised<A, R>(cfg: Config<A>, lp: Loop<A, R>, led: Ledger<Payload<A, R>>, l: Label<A, R>)
    requires ExitInv(cfg, lp) && LoopLabel(l) && LoopEnabled(cfg, lp, led.box, l)
    requires (Revises(l) || l.Panic?) && Working(lp)
    ensures ExitInv(cfg, LoopNext(cfg, lp, led, l))
  {
    hide LoopNext, LoopEnabled, RevisedTurn, RevisedHooks, RevisedActor;
    RevisionForm(cfg, lp, led, l);
  }

  lemma ExitTaken<A, R>(cfg: Config<A>, lp: Loop<A, R>, p: Payload<A, R>, e: nat)
    requires ExitInv(cfg, lp) && lp.phase.Idle?
    ensures ExitInv(cfg, TakePayload(cfg, lp, p, e))
  {
    hide TakePayload, TurnHooks, TakenTurn;
    TakenForm(cfg, lp, p, e);
  }

  lemma ExitStep<A, R>(cfg: Config<A>, lp: Loop<A, R>, led: Ledger<Payload<A, R>>, l: Label<A, R>)
    requires OutcomeInv(cfg, lp) && ExitInv(cfg, lp) && LoopLabel(l) && LoopEnabled(cfg, lp, led.box, l)
    ensures ExitInv(cfg, LoopNext(cfg, lp, led, l))
  {
    hide OutcomeInv, TakePayload, RunMicro, RunTimeout, RefreshDown, RefreshUp, EndTurn;
    if Revises(l) || (l.Panic? && Working(lp)) {
      hide LoopNext, ExitInv;
      if Revises(l) {
        RevisedWorks(cfg, lp, led, l);
      }
      ExitRevised(cfg, lp, led, l);
    } else if l.Recv? {
      ExitTaken(cfg, lp, led.box.queue[0], |led.fates|);
    }
  }

  // ----- the trace -----

  lemma TraceRevised<A, R>(cfg: Config<A>, us: seq<Turn<A, R>>, vs: seq<Turn<A, R>>)
    requires Revised(us, vs)
    ensures TraceOf(cfg, us) == TraceOf(cfg, us[..|us| - 1]) + TurnHooks(cfg, us[|us| - 1])
    ensures TraceOf(cfg, vs) == TraceOf(cfg, us[..|us| - 1]) + TurnHooks(cfg, vs[|us| - 1])
  {
    assert vs[..|us| - 1] == us[..|us| - 1];
  }

  lemma TraceAppended<A, R>(cfg: Config<A>, us: seq<Turn<A, R>>, vs: seq<Turn<A, R>>)
    requires Appended(us, vs)
    ensures TraceOf(cfg, vs) == TraceOf(cfg, us) + TurnHooks(cfg, vs[|us|])
  {
    assert vs[..|us|] == us;
  }

  lemma RevisionHooks<A, R>(cfg: Config<A>, t: Turn<A, R>, actor: A, l: Label<A, R>)
    requires Shaped(cfg, t, true, true) && (Revises(l) || l.Panic?)
    requires l.Timeout? || l.Complete? ==> t.work.Run?
    requires l.RestartStopped? ==> t.work.Refresh? && t.ran == 0
    requires l.RestartStarted? ==> t.work.Refresh? && t.ran == 1
    requires l.Micro? ==> t.work.Run?
    requires l.FinishedDone? ==> t.work.Conclude?
    ensures TurnHooks(cfg, RevisedTurn(t, actor, l)) == TurnHooks(cfg, t) + RevisedHooks(cfg, l)
  {
  }

  /** A label that revises the turn in progress extends the trace exactly as it extends that turn's hooks. */
  lemma ReviseHooks<A, R>(cfg: Config<A>, lp: Loop<A, R>, led: Ledger<Payload<A, R>>, l: Label<A, R>)
    returns (more: seq<L.Hook>)
    requires Working(lp) && GoodTurn(cfg, lp.turns, |lp.turns| - 1, true)
    requires LoopLabel(l) && LoopEnabled(cfg, lp, led.box, l) && (Revises(l) || l.Panic?)
    ensures var np := LoopNext(cfg, lp, led, l);
            && np.trace == lp.trace + more
            && |np.turns| == |lp.turns|
            && TurnHooks(cfg, np.turns[|lp.turns| - 1]) == TurnHooks(cfg, Last(lp)) + more
            && !np.phase.Spawned? && (np.exit == lp.exit || !np.exit.ByChannelEnd?)
  {
    hide LoopNext;
    RevisionForm(cfg, lp, led, l);
    hide RevisedActor, RevisedTurn, TurnHooks;
    more := RevisedHooks(cfg, l);
    RevisionHooks(cfg, Last(lp), lp.actor, l);
  }

  lemma TraceRevise<A, R>(cfg: Config<A>, lp: Loop<A, R>, led: Ledger<Payload<A, R>>, l: Label<A, R>)
    requires TraceInv(cfg, lp) && lp.exit.Running? && AllGood(cfg, lp.turns, lp.phase.Busy?)
    requires LoopLabel(l) && LoopEnabled(cfg, lp, led.box, l) && (Revises(l) || (l.Panic? && Working(lp)))
    ensures TraceInv(cfg, LoopNext(cfg, lp, led, l))
  {
    hide LoopNext, LoopEnabled, TraceOf, TurnHooks, GoodTurn, AllGood, Revised;
    ReviseTurns(cfg, lp, led, l);
    LastGood(cfg, lp);
    var np := LoopNext(cfg, lp, led, l);
    var more := ReviseHooks(cfg, lp, led, l);
    TraceRevised(cfg, lp.turns, np.turns);
    var before := TraceOf(cfg, lp.turns[..|lp.turns| - 1]);
    AssocHooks(before, TurnHooks(cfg, Last(lp)), more);
  }

  lemma AssocHooks(a: seq<L.Hook>, b: seq<L.Hook>, c: seq<L.Hook>)
    ensures (a + b) + c == a + (b + c)
  {
  }

  lemma TraceTake<A, R>(cfg: Config<A>, lp: Loop<A, R>, p: Payload<A, R>, e: nat)
    requires TraceInv(cfg, lp) && lp.phase.Idle? && lp.exit.Running?
    ensures TraceInv(cfg, TakePayload(cfg, lp, p, e))
  {
    RecvTurn(cfg, lp, p, e);
    TraceAppended(cfg, lp.turns, TakePayload(cfg, lp, p, e).turns);
    hide TraceOf;
  }

  lemma TraceOther<A, R>(cfg: Config<A>, lp: Loop<A, R>, led: Ledger<Payload<A, R>>, l: Label<A, R>)
    requires TraceInv(cfg, lp) && ExitInv(cfg, lp) && ActorInv(cfg, lp)
    requires LoopLabel(l) && LoopEnabled(cfg, lp, led.box, l)
    requires !Revises(l) && !Appends(l) && !(l.Panic? && Working(lp))
    ensures TraceInv(cfg, LoopNext(cfg, lp, led, l))
  {
    hide TakePayload, RunTimeout, RefreshDown, RefreshUp, RunMicro, EndTurn, SetLast, Replay;
    KeepTurns(cfg, lp, led, l);
  }

  lemma TraceStep<A, R>(cfg: Config<A>, lp: Loop<A, R>, led: Ledger<Payload<A, R>>, l: Label<A, R>)
    requires TraceInv(cfg, lp) && ExitInv(cfg, lp) && OutcomeInv(cfg, lp) && ActorInv(cfg, lp)
    requires LoopLabel(l) && LoopEnabled(cfg, lp, led.box, l)
    ensures TraceInv(cfg, LoopNext(cfg, lp, led, l))
  {
    hide TakePayload, RunTimeout, RefreshDown, RefreshUp, RunMicro, EndTurn, SetLast, TraceOf, AllGood;
    if Revises(l) || (l.Panic? && Working(lp)) {
      hide LoopNext, TraceInv;
      TraceRevise(cfg, lp, led, l);
    } else if l.Recv? {
      TraceTake(cfg, lp, led.box.queue[0], |led.fates|);
      hide TraceInv;
    } else if Appends(l) {
      StreamTurn(cfg, lp, led, l);
      TraceAppended(cfg, lp.turns, LoopNext(cfg, lp, led, l).turns);
    } else {
      hide LoopNext, TraceInv;
      TraceOther(cfg, lp, led, l);
    }
  }
}

/**
 * One actor and all its clients as a step system.  A step is a labelled atomic action of a client,
 * of the event loop, or of the task that joins the loop; every interleaving of enabled labels is a run.
 * Flag checks and enqueues are separate steps, as are the flag store and the one-shot send.
 */
module Protocol {
  import opened Base
  import opened Mailbox
  import opened Behaviour
  import opened Lifecycle

  // ----- payloads, handles, client operations -----

  datatype Payload<!A, !R> = Task(script: Script<A, R>, reply: Option<nat>) | Stop | Restart

  datatype Kind = KAddr | KSender | KCaller | KWeakAddr | KWeakSender | KWeakCaller

  datatype Handle = HandleOf(kind: Kind, live: bool)

  /** Every client entry point that touches the mailbox or the one-shot; `ping` is an `AddrCall`. */
  datatype Api =
    | AddrStop | AddrRestart | AddrCall | AddrSend | AddrTrySend | AddrAwait
    | SenderSend | SenderTrySend | SenderForceSend | CallerCall
    | CtxStop | CtxRestart

  datatype Push = TryPush | ForcePush | WaitPush

  function PushOf(api: Api): Push {
    match api
    case AddrCall | AddrTrySend | SenderTrySend => TryPush
    case AddrSend | SenderSend | CallerCall => WaitPush
    case _ => ForcePush
  }

  predicate FromContext(api: Api) { api.CtxStop? || api.CtxRestart? }

  predicate HasReply(api: Api) { api.AddrCall? || api.CallerCall? }

  /** The error an entry point answers when the flag is down or the push fails. */
  function RefusalOf(api: Api): ActorError {
    if api.SenderSend? || api.SenderTrySend? || api.SenderForceSend? || api.CallerCall? then ChannelClosed
    else AlreadyStopped
  }

  /** The kind of handle an entry point is called on. */
  function KindOf(api: Api): Kind {
    if api.SenderSend? || api.SenderTrySend? || api.SenderForceSend? then KSender
    else if api.CallerCall? then KCaller
    else KAddr
  }

  datatype Slot<+R> = Unsent | Sent(value: R) | Lost

  datatype Pc<+R> = Start | Cleared | Waiting | Done(result: Result<Option<R>>) | Dropped

  datatype Op<!A, !R> = Op(
    api: Api, script: Script<A, R>, handle: nat, pc: Pc<R>, slot: Slot<R>,
    entry: Option<nat>, begun: nat, ended: nat)

  predicate Active<A, R>(op: Op<A, R>) { op.pc.Start? || op.pc.Cleared? || op.pc.Waiting? }

  function PayloadOf<A, R>(op: Op<A, R>, o: nat): Payload<A, R> {
    match op.api
    case AddrStop | CtxStop => Stop
    case AddrRestart | CtxRestart => Restart
    case AddrCall | CallerCall => Task(op.script, Some(o))
    case _ => Task(op.script, None)
  }

  /** Mailbox references held by a handle: a `Sender` clones the channel into three closures. */
  function HandleRefs(h: Handle): nat {
    if !h.live then 0
    else match h.kind
      case KAddr => 1
      case KSender => 3
      case KCaller => 1
      case _ => 0
  }

  /** Mailbox references held by an operation in flight, beyond those of the handle it borrows. */
  function OpRefs<A, R>(op: Op<A, R>): nat {
    if (op.api.SenderSend? || op.api.CallerCall?) && Active(op) then 1
    else if FromContext(op.api) && op.pc.Cleared? then 1
    else 0
  }

  predicate Weak(k: Kind) { k.KWeakAddr? || k.KWeakSender? || k.KWeakCaller? }

  /** `clone`, `downgrade`, `upgrade` and the conversions between handles. */
  predicate Convertible(from: Kind, to: Kind) {
    match from
    case KAddr => true
    case KSender => to.KSender? || to.KWeakSender?
    case KCaller => to.KCaller? || to.KWeakCaller?
    case KWeakAddr => to.KAddr? || Weak(to)
    case KWeakSender => to.KSender? || to.KWeakSender?
    case KWeakCaller => to.KCaller? || to.KWeakCaller?
  }

  // ----- the event loop -----

  datatype Phase = Spawned | Booting | Idle | Busy | Closing | Cancelling | Notifying | Unwinding | Ended

  datatype Exit = Running | ByStop | ByChannelEnd | StartFailed | RestartFailed | TimedOut | Panicked

  predicate Normal(e: Exit) { e.ByStop? || e.ByChannelEnd? }

  /** `StopNotifier`: armed, flag already lowered, or one-shot sent as well. */
  datatype Notifier = Armed | Lowered | Gone

  datatype Loop<!A, !R> = Loop(
    phase: Phase, exit: Exit, actor: A, turns: seq<Turn<A, R>>, trace: seq<Hook>,
    flag: bool, notifier: Notifier, shots: nat, rx: bool, ctx: bool, items: nat, streamOpen: bool)

  datatype Join<+A> = Joining | Joined(actor: Option<A>)

  datatype State<!A, !R> = State(
    cfg: Config<A>, led: Ledger<Payload<A, R>>, stamps: seq<nat>, loop: Loop<A, R>,
    handles: seq<Handle>, ops: seq<Op<A, R>>, joins: seq<Join<A>>, clock: nat)

  ghost function InitState<A, R>(cfg: Config<A>): State<A, R> {
    State(cfg, Fresh(cfg.capacity), [],
          Loop(Spawned, Running, cfg.init, [], [], true, Armed, 0, true, true, 0, cfg.onStream),
          [HandleOf(KAddr, true)], [], [], 0)
  }

  function WorkOf<A, R>(p: Payload<A, R>): Work<A, R> {
    match p
    case Task(script, _) => Run(script)
    case Stop => Halt
    case Restart => Refresh
  }

  ghost predicate ValidConfig<A>(cfg: Config<A>) {
    cfg.capacity.Some? ==> 1 <= cfg.capacity.value
  }

  // ----- labels -----

  datatype Label<!A, !R> =
    // clients
    | Convert(from: nat, to: Kind) | ContextHandle(to: Kind) | DropHandle(handle: nat)
    | Begin(api: Api, script: Script<A, R>, handle: nat)
    | Check(op: nat) | Deliver(op: nat) | Receive(op: nat) | Abandon(op: nat)
    | BeginJoin | EndJoin(join: nat)
    | LoseQueued(entry: nat)
    // event loop
    | Boot | BootDone(ok: bool) | Recv | ChannelEnd | Micro | Complete | Timeout | Panic
    | RestartStopped | RestartStarted(ok: bool)
    | StreamItem(script: Script<A, R>) | StreamEnd | FinishedDone
    | StoppedDone | CancelledDone | Lower | Fire | DropRx | DropCtx | Exit

  predicate LoopLabel<A, R>(l: Label<A, R>) {
    !(l.Convert? || l.ContextHandle? || l.DropHandle? || l.Begin? || l.Check? || l.Deliver? || l.Receive?
      || l.Abandon? || l.BeginJoin? || l.EndJoin? || l.LoseQueued?)
  }

  predicate HookRunning(p: Phase) { p.Booting? || p.Busy? || p.Closing? || p.Cancelling? }

  ghost function Last<A, R>(lp: Loop<A, R>): Turn<A, R>
    requires lp.turns != []
  {
    lp.turns[|lp.turns| - 1]
  }

  ghost predicate Working<A, R>(lp: Loop<A, R>) { lp.phase.Busy? && lp.turns != [] }

  /** The operation is a method call on handle `op.handle`, which it borrows until it returns. */
  predicate Borrows<A, R>(op: Op<A, R>) {
    Active(op) && !op.api.SenderSend? && !FromContext(op.api)
  }

  ghost predicate Borrowed<A, R>(s: State<A, R>, h: nat) {
    exists o :: 0 <= o < |s.ops| && s.ops[o].handle == h && Borrows(s.ops[o])
  }

  ghost predicate Enabled<A, R>(s: State<A, R>, l: Label<A, R>) {
    if LoopLabel(l) then LoopEnabled(s.cfg, s.loop, s.led.box, l) else ClientEnabled(s, l)
  }

  ghost predicate ClientEnabled<A, R>(s: State<A, R>, l: Label<A, R>)
    requires !LoopLabel(l)
  {
    match l
    case Convert(from, to) => from < |s.handles| && s.handles[from].live && Convertible(s.handles[from].kind, to)
    case ContextHandle(to) => HookRunning(s.loop.phase) && Weak(to)
    case DropHandle(h) => h < |s.handles| && s.handles[h].live && !Borrowed(s, h)
    case Begin(api, _, h) =>
      if FromContext(api) then HookRunning(s.loop.phase)
      else h < |s.handles| && s.handles[h].live && s.handles[h].kind == KindOf(api)
    case Check(o) => o < |s.ops| && s.ops[o].pc.Start? && (s.ops[o].api.AddrAwait? ==> s.loop.shots > 0)
    case Deliver(o) => o < |s.ops| && s.ops[o].pc.Cleared?
                       && (PushOf(s.ops[o].api).WaitPush? ==> s.led.box.closed || !Full(s.led.box))
    case Receive(o) => o < |s.ops| && s.ops[o].pc.Waiting? && !s.ops[o].slot.Unsent?
    case Abandon(o) => o < |s.ops| && Active(s.ops[o]) && !FromContext(s.ops[o].api)
    case BeginJoin => true
    case EndJoin(j) => j < |s.joins| && s.joins[j].Joining? && s.loop.phase.Ended?
    case LoseQueued(e) => !s.loop.rx && |s.led.fates| <= e < |s.led.accepted|
  }

  ghost predicate LoopEnabled<A, R>(cfg: Config<A>, lp: Loop<A, R>, box: Box<Payload<A, R>>, l: Label<A, R>)
    requires LoopLabel(l)
  {
    match l
    case Boot => lp.phase.Spawned?
    case BootDone(_) => lp.phase.Booting?
    case Recv => lp.phase.Idle? && box.queue != []
    case ChannelEnd => lp.phase.Idle? && box.queue == [] && box.closed
    case Micro => Working(lp) && Last(lp).work.Run? && Last(lp).ran < |Last(lp).work.script.steps|
    case Complete => Working(lp) && Last(lp).work.Run? && Last(lp).ran == |Last(lp).work.script.steps|
    case Timeout => Working(lp) && Last(lp).work.Run? && cfg.timeout
    case Panic => HookRunning(lp.phase)
    case RestartStopped => Working(lp) && Last(lp).work.Refresh? && Last(lp).ran == 0
    case RestartStarted(_) => Working(lp) && Last(lp).work.Refresh? && Last(lp).ran == 1
    case StreamItem(_) => lp.phase.Idle? && cfg.onStream && lp.streamOpen
    case StreamEnd => lp.phase.Idle? && cfg.onStream && lp.streamOpen
    case FinishedDone => Working(lp) && Last(lp).work.Conclude?
    case StoppedDone => lp.phase.Closing?
    case CancelledDone => lp.phase.Cancelling?
    case Lower => (lp.phase.Notifying? || lp.phase.Unwinding?) && lp.notifier.Armed?
    case Fire => (lp.phase.Notifying? || lp.phase.Unwinding?) && lp.notifier.Lowered?
    case DropRx => lp.phase.Unwinding? && lp.rx
    case DropCtx => lp.phase.Unwinding? && lp.ctx
    case Exit => lp.phase.Unwinding? && !lp.rx && !lp.ctx && lp.notifier.Gone?
  }

  // ----- client steps -----

  ghost function AddHandle<A, R>(s: State<A, R>, to: Kind, ok: bool): State<A, R> {
    var h := HandleOf(to, ok);
    s.(handles := s.handles + [h], led := AddRefs(s.led, HandleRefs(h)))
  }

  ghost function Shed<A, R>(led: Ledger<Payload<A, R>>, n: nat): Ledger<Payload<A, R>> {
    if n <= led.box.strong then DropRefs(led, n) else led
  }

  /** Move operation `o` to `pc`, taking or returning the reference it holds in flight. */
  ghost function Advance<A, R>(s: State<A, R>, o: nat, op: Op<A, R>): State<A, R>
    requires o < |s.ops|
  {
    var before, after := OpRefs(s.ops[o]), OpRefs(op);
    s.(ops := s.ops[o := op],
       led := if before <= after then AddRefs(s.led, after - before) else Shed(s.led, before - after))
  }

  /** `ended` records when the operation last moved. */
  ghost function MoveTo<A, R>(s: State<A, R>, o: nat, pc: Pc<R>): State<A, R>
    requires o < |s.ops|
  {
    Advance(s, o, s.ops[o].(pc := pc, ended := s.clock))
  }

  ghost function SetSlot<A, R>(ops: seq<Op<A, R>>, reply: Option<nat>, slot: Slot<R>): seq<Op<A, R>> {
    if reply.Some? && reply.value < |ops| then ops[reply.value := ops[reply.value].(slot := slot)] else ops
  }

  ghost function ReplyOf<A, R>(p: Payload<A, R>): Option<nat> {
    if p.Task? then p.reply else None
  }

  ghost function DoBegin<A, R>(s: State<A, R>, api: Api, script: Script<A, R>, h: nat): State<A, R> {
    var op := Op(api, script, h, Start, Unsent, None, s.clock, s.clock);
    s.(ops := s.ops + [op], led := AddRefs(s.led, OpRefs(op)))
  }

  /** The flag check of an entry point; from a context, the upgrade of its weak channel instead. */
  ghost function CheckResult<A, R>(s: State<A, R>, o: nat): Pc<R>
    requires o < |s.ops|
  {
    var api := s.ops[o].api;
    if api.AddrAwait? then Done(Ok(None))
    else if FromContext(api) then if Upgradable(s.led.box) then Cleared else Done(Err(ActorDropped))
    else if s.loop.flag then Cleared
    else Done(Err(RefusalOf(api)))
  }

  /** The push fails on a closed mailbox, and `try_send` also on a full one. */
  ghost predicate Refuses<A, R>(s: State<A, R>, o: nat)
    requires o < |s.ops|
  {
    s.led.box.closed || (PushOf(s.ops[o].api).TryPush? && Full(s.led.box))
  }

  /** The reply slot of the payload that forcing into a full queue displaces. */
  ghost function Victim<A, R>(s: State<A, R>, o: nat): Option<nat>
    requires o < |s.ops|
  {
    if PushOf(s.ops[o].api).ForcePush? && Full(s.led.box) && s.led.box.queue != []
    then ReplyOf(s.led.box.queue[0]) else None
  }

  /** The mailbox after the push, with the displaced payload's reply sender dropped. */
  ghost function Accepted<A, R>(s: State<A, R>, o: nat): State<A, R>
    requires o < |s.ops|
  {
    var p := PayloadOf(s.ops[o], o);
    s.(led := if PushOf(s.ops[o].api).ForcePush? then Force(s.led, p) else Enqueue(s.led, p),
       stamps := s.stamps + [s.clock],
       ops := SetSlot(s.ops, Victim(s, o), Lost))
  }

  ghost function DoDeliver<A, R>(s: State<A, R>, o: nat): State<A, R>
    requires o < |s.ops|
  {
    var op := s.ops[o];
    if Refuses(s, o) then MoveTo(s, o, Done(Err(RefusalOf(op.api))))
    else
      var t := Accepted(s, o);
      Advance(t, o, t.ops[o].(entry := Some(|s.led.accepted|), ended := s.clock,
                              pc := if HasReply(op.api) then Waiting else Done(Ok(None))))
  }

  ghost function Reply<A, R>(op: Op<A, R>): Result<Option<R>> {
    if op.slot.Sent? then Ok(Some(op.slot.value)) else Err(Canceled)
  }

  ghost function DoEndJoin<A, R>(s: State<A, R>, j: nat): State<A, R>
    requires j < |s.joins|
  {
    s.(joins := s.joins[j := Joined(if Normal(s.loop.exit) then Some(s.loop.actor) else None)])
  }

  // ----- event loop steps -----

  ghost function InvokeHook<A, R>(lp: Loop<A, R>, h: Hook, phase: Phase): Loop<A, R> {
    lp.(trace := lp.trace + [h], phase := phase)
  }

  ghost function SetLast<A, R>(lp: Loop<A, R>, t: Turn<A, R>): Loop<A, R>
    requires lp.turns != []
  {
    lp.(turns := lp.turns[|lp.turns| - 1 := t])
  }

  ghost function NewTurn<A, R>(lp: Loop<A, R>, src: Source, w: Work<A, R>, out: Outcome<R>): Loop<A, R> {
    lp.(turns := lp.turns + [Turn(src, w, 0, out)])
  }

  /** A payload was dequeued as entry `e`: start its turn (src/event_loop.rs:119-141). */
  ghost function TakePayload<A, R>(cfg: Config<A>, lp: Loop<A, R>, p: Payload<A, R>, e: nat): Loop<A, R> {
    var src := Source.Mailbox(e);
    match p
    case Stop => InvokeHook(NewTurn(lp, src, Halt, Completed(None)), Stopped, Closing).(exit := ByStop)
    case Restart =>
      if cfg.onStream then NewTurn(lp, src, Refresh, Broken).(phase := Unwinding, exit := Panicked)
      else if cfg.strategy.NonRestartable? then NewTurn(lp, src, Refresh, Completed(None))
      else InvokeHook(NewTurn(lp, src, Refresh, Pending), Stopped, Busy)
    case Task(script, _) => InvokeHook(NewTurn(lp, src, Run(script), Pending), Handling, Busy)
  }

  ghost function EndTurn<A, R>(lp: Loop<A, R>, out: Outcome<R>, phase: Phase): Loop<A, R>
    requires lp.turns != []
  {
    SetLast(lp, Last(lp).(outcome := out)).(phase := phase)
  }

  ghost function RunMicro<A, R>(lp: Loop<A, R>): Loop<A, R>
    requires Working(lp) && Last(lp).work.Run? && Last(lp).ran < |Last(lp).work.script.steps|
  {
    var t := Last(lp);
    SetLast(lp, t.(ran := t.ran + 1)).(actor := t.work.script.steps[t.ran](lp.actor))
  }

  /** The timer won the race: the handler is dropped where it stands (src/event_loop.rs:128-136). */
  ghost function RunTimeout<A, R>(cfg: Config<A>, lp: Loop<A, R>): Loop<A, R>
    requires lp.turns != []
  {
    if cfg.failOnTimeout then InvokeHook(EndTurn(lp, Cut, Cancelling), Cancelled, Cancelling).(exit := TimedOut)
    else EndTurn(lp, Cut, Idle)
  }

  /** `refresh`, first half: `stopped` ran, the actor may have been replaced, `started` is invoked. */
  ghost function RefreshDown<A, R>(cfg: Config<A>, lp: Loop<A, R>): Loop<A, R>
    requires lp.turns != []
  {
    InvokeHook(SetLast(lp, Last(lp).(ran := 1)), Started, Busy).(actor := RefreshStage(cfg, 1, lp.actor))
  }

  ghost function RefreshUp<A, R>(cfg: Config<A>, lp: Loop<A, R>, ok: bool): Loop<A, R>
    requires lp.turns != []
  {
    if ok then SetLast(lp, Last(lp).(ran := 2, outcome := Completed(None)))
               .(actor := cfg.hooks.started(lp.actor), phase := Idle)
    else EndTurn(lp, Broken, Unwinding).(exit := RestartFailed)
  }

  ghost function LoopNext<A, R>(
    cfg: Config<A>, lp: Loop<A, R>, led: Ledger<Payload<A, R>>, l: Label<A, R>): Loop<A, R>
    requires LoopLabel(l) && LoopEnabled(cfg, lp, led.box, l)
  {
    match l
    case Boot => InvokeHook(lp, Started, Booting)
    case BootDone(ok) =>
      if ok then lp.(actor := cfg.hooks.started(lp.actor), phase := Idle)
      else lp.(phase := Unwinding, exit := StartFailed)
    case Recv => TakePayload(cfg, lp, led.box.queue[0], |led.fates|)
    case ChannelEnd => InvokeHook(lp, Stopped, Closing).(exit := ByChannelEnd)
    case Micro => RunMicro(lp)
    case Complete => EndTurn(lp, Completed(Some(Last(lp).work.script.answer(lp.actor))), Idle)
    case Timeout => RunTimeout(cfg, lp)
    case Panic => (if Working(lp) then EndTurn(lp, Broken, Unwinding) else lp).(phase := Unwinding, exit := Panicked)
    case RestartStopped => RefreshDown(cfg, lp)
    case RestartStarted(ok) => RefreshUp(cfg, lp, ok)
    case StreamItem(script) =>
      InvokeHook(NewTurn(lp, Stream(lp.items), Run(script), Pending), Handling, Busy).(items := lp.items + 1)
    case StreamEnd =>
      InvokeHook(NewTurn(lp, Stream(lp.items), Conclude, Pending), Finished, Busy).(streamOpen := false)
    case FinishedDone =>
      SetLast(lp, Last(lp).(ran := 1, outcome := Completed(None)))
      .(actor := cfg.hooks.finished(lp.actor), phase := Idle)
    case StoppedDone => lp.(actor := cfg.hooks.stopped(lp.actor), phase := Notifying)
    case CancelledDone => lp.(actor := cfg.hooks.cancelled(lp.actor), phase := Unwinding)
    case Lower => lp.(flag := false, notifier := Lowered)
    case Fire => lp.(shots := lp.shots + 1, notifier := Gone, phase := Unwinding)
    case DropRx => lp.(rx := false)
    case DropCtx => lp.(ctx := false)
    case Exit => lp.(phase := Ended)
  }

  /** The reply slot the current turn would answer. */
  ghost function CurrentReply<A, R>(s: State<A, R>): Option<nat> {
    var lp := s.loop;
    if lp.turns != [] && Last(lp).source.Mailbox? && Last(lp).source.entry < |s.led.accepted|
    then ReplyOf(s.led.accepted[Last(lp).source.entry]) else None
  }

  /** A completed handler sends its answer; a cut or panicking one drops its reply sender. */
  ghost function LoopSlots<A, R>(s: State<A, R>, l: Label<A, R>): seq<Op<A, R>>
    requires Enabled(s, l) && LoopLabel(l)
  {
    if l.Complete? then SetSlot(s.ops, CurrentReply(s), Sent(Last(s.loop).work.script.answer(s.loop.actor)))
    else if l.Timeout? || (l.Panic? && Working(s.loop)) then SetSlot(s.ops, CurrentReply(s), Lost)
    else s.ops
  }

  ghost function LoopLedger<A, R>(s: State<A, R>, l: Label<A, R>): Ledger<Payload<A, R>>
    requires Enabled(s, l) && LoopLabel(l)
  {
    if l.Recv? then Dequeue(s.led, |s.loop.turns|)
    else if l.DropRx? then CloseReceiver(s.led)
    else s.led
  }

  ghost function LoopStep<A, R>(s: State<A, R>, l: Label<A, R>): State<A, R>
    requires Enabled(s, l) && LoopLabel(l)
  {
    s.(loop := LoopNext(s.cfg, s.loop, s.led, l), led := LoopLedger(s, l), ops := LoopSlots(s, l))
  }

  ghost function ClientStep<A, R>(s: State<A, R>, l: Label<A, R>): State<A, R>
    requires Enabled(s, l) && !LoopLabel(l)
  {
    match l
    case Convert(from, to) =>
      AddHandle(s, to, Weak(to) || !Weak(s.handles[from].kind) || Upgradable(s.led.box))
    case ContextHandle(to) => AddHandle(s, to, true)
    case DropHandle(h) =>
      s.(handles := s.handles[h := s.handles[h].(live := false)], led := Shed(s.led, HandleRefs(s.handles[h])))
    case Begin(api, script, h) => DoBegin(s, api, script, h)
    case Check(o) => MoveTo(s, o, CheckResult(s, o))
    case Deliver(o) => DoDeliver(s, o)
    case Receive(o) => MoveTo(s, o, Done(Reply(s.ops[o])))
    case Abandon(o) => MoveTo(s, o, Dropped)
    case BeginJoin => s.(joins := s.joins + [if s.joins == [] then Joining else Joined(None)])
    case EndJoin(j) => DoEndJoin(s, j)
    case LoseQueued(e) => s.(ops := SetSlot(s.ops, ReplyOf(s.led.accepted[e]), Lost))
  }

  ghost function Step<A, R>(s: State<A, R>, l: Label<A, R>): State<A, R>
    requires Enabled(s, l)
  {
    (if LoopLabel(l) then LoopStep(s, l) else ClientStep(s, l)).(clock := s.clock + 1)
  }

  lemma StepDeliver<A, R>(s: State<A, R>, o: nat)
    requires Enabled(s, Label.Deliver(o))
    ensures Step(s, Label.Deliver(o)) == DoDeliver(s, o).(clock := s.clock + 1)
  {
    hide LoopStep;
  }

  lemma StepClient<A, R>(s: State<A, R>, l: Label<A, R>)
    requires Enabled(s, l) && !LoopLabel(l)
    ensures ClientEnabled(s, l) && Step(s, l) == ClientStep(s, l).(clock := s.clock + 1)
  {
    hide LoopStep, ClientStep, ClientEnabled;
  }

  lemma StepLoop<A, R>(s: State<A, R>, l: Label<A, R>)
    requires Enabled(s, l) && LoopLabel(l)
    ensures LoopEnabled(s.cfg, s.loop, s.led.box, l)
    ensures Step(s, l) == s.(loop := LoopNext(s.cfg, s.loop, s.led, l), led := LoopLedger(s, l),
                             ops := LoopSlots(s, l), clock := s.clock + 1)
  {
    hide LoopEnabled, LoopNext, LoopLedger, LoopSlots, ClientStep;
  }

  // ----- runs -----

  /** `ls` is a run from `s`: each label is enabled when its turn comes. */
  ghost predicate IsRun<A, R>(s: State<A, R>, ls: seq<Label<A, R>>)
    decreases |ls|
  {
    ls == [] || (Enabled(s, ls[0]) && IsRun(Step(s, ls[0]), ls[1..]))
  }

  ghost function After<A, R>(s: State<A, R>, ls: seq<Label<A, R>>): State<A, R>
    requires IsRun(s, ls)
    decreases |ls|
  {
    if ls == [] then s else After(Step(s, ls[0]), ls[1..])
  }

  lemma {:induction false} RunConcat<A, R>(s: State<A, R>, xs: seq<Label<A, R>>, ys: seq<Label<A, R>>)
    requires IsRun(s, xs) && IsRun(After(s, xs), ys)
    ensures IsRun(s, xs + ys) && After(s, xs + ys) == After(After(s, xs), ys)
    decreases |xs|
  {
    hide Step, Enabled;
    if xs == [] {
      assert xs + ys == ys;
    } else {
      RunConcat(Step(s, xs[0]), xs[1..], ys);
      assert (xs + ys)[1..] == xs[1..] + ys;
    }
  }
}

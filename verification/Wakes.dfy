/**
 * The environment of an event loop, wake-up by wake-up, and what each wake-up must lead to: which event the
 * loop sees, how far the turn it then takes gets, and whether the loop goes on or what its future resolves to.
 */
module Wakes {
  import opened Base
  import opened Mailbox
  import opened Behaviour
  import opened Protocol

  /** How a lifecycle hook ends; only `started` can return an error. */
  datatype HookEnd = Fine | Fails | Panics

  /** How a handler goes: to its end, or cut by the timer or a panic after some micro-steps. */
  datatype Course = ToEnd | TimerAfter(steps: nat) | PanicAfter(steps: nat)

  /** What clients can do to the mailbox while the loop waits. */
  datatype Act<+T> = TrySends(x: T) | ForceSends(x: T) | Clones | Releases

  /** The arm that `select!` takes in a stream loop. */
  datatype Arm<!A, !R> = FromMailbox | FromStream(script: Script<A, R>) | StreamOver

  /** One wake-up of the loop, and how whatever it then runs will go. */
  datatype Wake<!A, !R> = Wake(
    acts: seq<Act<Payload<A, R>>>, arm: Arm<A, R>, course: Course, down: HookEnd, up: HookEnd)

  /** What the future of the loop resolves to, or `Suspended` while it still waits. */
  datatype Finish<+A> = Returned(actor: A) | Failed | Crashed | Suspended

  /** What the loop sees when it wakes: nothing yet, the end of the channel, a payload, or its stream. */
  datatype Saw<!A, !R> = Slept | Closed | Took(payload: Payload<A, R>) | Item(script: Script<A, R>) | StreamEnded

  // ----- the mailbox -----

  ghost function AfterAct<T>(m: Ledger<T>, act: Act<T>): Ledger<T> {
    match act
    case TrySends(x) => if m.box.closed || Full(m.box) then m else Enqueue(m, x)
    case ForceSends(x) => if m.box.closed then m else Force(m, x)
    case Clones => if m.box.strong > 0 then AddRefs(m, 1) else m
    case Releases => if m.box.strong > 0 then DropRefs(m, 1) else m
  }

  ghost function Acted<T>(l: Ledger<T>, acts: seq<Act<T>>): Ledger<T> {
    if acts == [] then l else AfterAct(Acted(l, acts[..|acts| - 1]), acts[|acts| - 1])
  }

  lemma ActedNext<T>(l: Ledger<T>, acts: seq<Act<T>>, i: nat)
    ensures Acted(l, acts[..0]) == l
    ensures i < |acts| ==> Acted(l, acts[..i + 1]) == AfterAct(Acted(l, acts[..i]), acts[i])
  {
    assert i < |acts| ==> acts[..i + 1][..i] == acts[..i];
  }

  /** What the loop sees in `before`, once the clients have acted. */
  ghost predicate Sees<A, R>(before: Ledger<Payload<A, R>>, w: Wake<A, R>, saw: Saw<A, R>) {
    var box := Acted(before, w.acts).box;
    match saw
    case Slept => box.queue == [] && !box.closed
    case Closed => box.queue == [] && box.closed
    case Took(p) => box.queue != [] && box.queue[0] == p
    case Item(_) => true
    case StreamEnded => true
  }

  /** And what it leaves in the mailbox; `turn` is the turn that a taken payload begins. */
  ghost function Left<A, R>(
    before: Ledger<Payload<A, R>>, w: Wake<A, R>, saw: Saw<A, R>, turn: nat): Ledger<Payload<A, R>> {
    if saw.Item? || saw.StreamEnded? then before
    else
      var m := Acted(before, w.acts);
      if saw.Took? && m.box.queue != [] then Dequeue(m, turn) else m
  }

  /** The stream is served at its arm until it has ended, and everything else is the mailbox. */
  ghost predicate AtArm<A, R>(w: Wake<A, R>, saw: Saw<A, R>, open: bool) {
    match w.arm
    case FromStream(script) => if open then saw == Item(script) else !saw.Item? && !saw.StreamEnded?
    case StreamOver => if open then saw.StreamEnded? else !saw.Item? && !saw.StreamEnded?
    case FromMailbox => !saw.Item? && !saw.StreamEnded?
  }

  // ----- the turns -----

  /**
   * A handler that finds the actor as `a` runs to its end and answers, or is cut or broken where its course
   * says; the timer only counts if there is one.
   */
  ghost predicate HandlerRan<A, R>(cfg: Config<A>, course: Course, script: Script<A, R>, a: A, t: Turn<A, R>) {
    && t.work == Run(script)
    && match course
       case ToEnd => HandlerDone(script, a, t)
       case PanicAfter(n) => t.ran == Min(n, |script.steps|) && t.outcome == Broken
       case TimerAfter(n) =>
         if cfg.timeout then t.ran == Min(n, |script.steps|) && t.outcome == Cut else HandlerDone(script, a, t)
  }

  ghost predicate HandlerDone<A, R>(script: Script<A, R>, a: A, t: Turn<A, R>) {
    t.ran == |script.steps| && t.outcome == Completed(Some(script.answer(RunSteps(script.steps, a))))
  }

  ghost predicate Restarted<A, R>(cfg: Config<A>, w: Wake<A, R>, t: Turn<A, R>) {
    && t.work.Refresh?
    && if cfg.onStream then t.ran == 0 && t.outcome == Broken
       else if cfg.strategy.NonRestartable? then t.ran == 0 && t.outcome == Completed(None)
       else if w.down.Panics? then t.ran == 0 && t.outcome == Broken
       else if w.up.Fine? then t.ran == 2 && t.outcome == Completed(None)
       else t.ran == 1 && t.outcome == Broken
  }

  /** The turn of a wake-up that saw something to do, on an actor `a`. */
  ghost predicate Did<A, R>(cfg: Config<A>, w: Wake<A, R>, saw: Saw<A, R>, a: A, t: Turn<A, R>) {
    match saw
    case Took(Task(script, _)) => HandlerRan(cfg, w.course, script, a, t)
    case Took(Stop) => t.work.Halt? && t.ran == 0 && t.outcome == Completed(None)
    case Took(Restart) => Restarted(cfg, w, t)
    case Item(script) => HandlerRan(cfg, w.course, script, a, t)
    case StreamEnded =>
      && t.work.Conclude?
      && if w.down.Panics? then t.ran == 0 && t.outcome == Broken else t.ran == 1 && t.outcome == Completed(None)
    case _ => false
  }

  // ----- the end -----

  /** Whether the loop goes on after a wake-up (`Suspended`), or what its future resolves to. */
  ghost predicate Decides<A, R>(cfg: Config<A>, w: Wake<A, R>, saw: Saw<A, R>, res: Finish<A>) {
    match saw
    case Slept => res.Suspended?
    case Closed => if w.down.Panics? then res.Crashed? else res.Returned?
    case Took(Stop) => if w.down.Panics? then res.Crashed? else res.Returned?
    case Took(Restart) =>
      if cfg.onStream then res.Crashed?
      else if cfg.strategy.NonRestartable? then res.Suspended?
      else if w.down.Panics? || w.up.Panics? then res.Crashed?
      else if w.up.Fails? then res.Failed? else res.Suspended?
    case Took(Task(_, _)) => HandlerDecides(cfg, w, res)
    case Item(_) => HandlerDecides(cfg, w, res)
    case StreamEnded => if w.down.Panics? then res.Crashed? else res.Suspended?
  }

  ghost predicate HandlerDecides<A, R>(cfg: Config<A>, w: Wake<A, R>, res: Finish<A>) {
    if w.course.PanicAfter? then res.Crashed?
    else if w.course.TimerAfter? && cfg.timeout && cfg.failOnTimeout then
      if w.down.Panics? then res.Crashed? else res.Failed?
    else res.Suspended?
  }

  // ----- whole plays -----

  predicate Busies<A, R>(saw: Saw<A, R>) { !saw.Slept? && !saw.Closed? }

  /** The turns that a loop takes at the wake-ups of `env`, one for each that saw something to do. */
  ghost predicate Turned<A, R>(cfg: Config<A>, env: seq<Wake<A, R>>, saws: seq<Saw<A, R>>, turns: seq<Turn<A, R>>)
    requires |saws| <= |env|
  {
    if saws == [] then turns == []
    else
      var n := |saws| - 1;
      if Busies(saws[n])
      then
        && turns != [] && Turned(cfg, env, saws[..n], turns[..|turns| - 1])
        && Did(cfg, env[n], saws[n], Replay(cfg, turns[..|turns| - 1]), turns[|turns| - 1])
      else Turned(cfg, env, saws[..n], turns)
  }

  function TurnCount<A, R>(saws: seq<Saw<A, R>>): nat {
    if saws == [] then 0
    else TurnCount(saws[..|saws| - 1]) + if Busies(saws[|saws| - 1]) then 1 else 0
  }

  /** The mailbox after the wake-ups of `env`. */
  ghost function MailboxAfter<A, R>(
    first: Ledger<Payload<A, R>>, env: seq<Wake<A, R>>, saws: seq<Saw<A, R>>): Ledger<Payload<A, R>>
    requires |saws| <= |env|
  {
    if saws == [] then first
    else
      var n := |saws| - 1;
      Left(MailboxAfter(first, env, saws[..n]), env[n], saws[n], TurnCount(saws[..n]))
  }

  /** Each wake-up sees what the ones before it and the clients left. */
  ghost predicate Fed<A, R>(first: Ledger<Payload<A, R>>, env: seq<Wake<A, R>>, saws: seq<Saw<A, R>>)
    requires |saws| <= |env|
  {
    forall i :: 0 <= i < |saws| ==> Sees(MailboxAfter(first, env, saws[..i]), env[i], saws[i])
  }

  predicate StreamOpen<A, R>(onStream: bool, saws: seq<Saw<A, R>>) {
    onStream && forall j :: 0 <= j < |saws| ==> !saws[j].StreamEnded?
  }

  ghost predicate Served<A, R>(onStream: bool, env: seq<Wake<A, R>>, saws: seq<Saw<A, R>>)
    requires |saws| <= |env|
  {
    forall i :: 0 <= i < |saws| ==> AtArm(env[i], saws[i], StreamOpen(onStream, saws[..i]))
  }

  /** Every wake-up but the last goes on, and the last one decides; without one that ends it, the loop waits. */
  ghost predicate Decided<A, R>(cfg: Config<A>, env: seq<Wake<A, R>>, saws: seq<Saw<A, R>>, res: Finish<A>)
    requires |saws| <= |env|
  {
    && GoesOn(cfg, env, saws, |saws| - 1)
    && (if saws == [] then res.Suspended? else Decides(cfg, env[|saws| - 1], saws[|saws| - 1], res))
    && (res.Suspended? ==> |saws| == |env|)
  }

  ghost predicate GoesOn<A, R>(cfg: Config<A>, env: seq<Wake<A, R>>, saws: seq<Saw<A, R>>, n: int)
    requires n <= |saws| <= |env|
  {
    forall i :: 0 <= i < n ==> Decides(cfg, env[i], saws[i], Suspended)
  }

  /** One loop's play: what it saw, which turns it took and how it decided, wake-up by wake-up. */
  ghost predicate Played<A, R>(
    cfg: Config<A>, first: Ledger<Payload<A, R>>, env: seq<Wake<A, R>>, saws: seq<Saw<A, R>>, turns: seq<Turn<A, R>>) {
    && |saws| <= |env| && Fed(first, env, saws) && Served(cfg.onStream, env, saws)
    && Turned(cfg, env, saws, turns)
  }

  lemma NothingPlayed<A, R>(cfg: Config<A>, first: Ledger<Payload<A, R>>, env: seq<Wake<A, R>>)
    ensures Played<A, R>(cfg, first, env, [], []) && GoesOn<A, R>(cfg, env, [], 0)
    ensures MailboxAfter<A, R>(first, env, []) == first
  {
  }

  /** One more wake-up: it takes one turn, or it saw nothing to do and leaves the turns alone. */
  lemma PlayedNext<A, R>(
    cfg: Config<A>, first: Ledger<Payload<A, R>>, env: seq<Wake<A, R>>, saws: seq<Saw<A, R>>, turns: seq<Turn<A, R>>,
    saw: Saw<A, R>, now: seq<Turn<A, R>>)
    requires Played(cfg, first, env, saws, turns) && |saws| < |env|
    requires Sees(MailboxAfter(first, env, saws), env[|saws|], saw)
    requires AtArm(env[|saws|], saw, StreamOpen(cfg.onStream, saws))
    requires if Busies(saw)
             then |now| == |turns| + 1 && now[..|turns|] == turns
                  && Did(cfg, env[|saws|], saw, Replay(cfg, turns), now[|turns|])
             else now == turns
    ensures Played(cfg, first, env, saws + [saw], now)
    ensures MailboxAfter(first, env, saws + [saw]) == Left(MailboxAfter(first, env, saws), env[|saws|], saw, |turns|)
  {
    hide Sees, AtArm, Did, Left, StreamOpen, Replay;
    SeenMore(cfg, first, env, saws, saw);
    TurnedCount(cfg, env, saws, turns);
    assert (saws + [saw])[..|saws|] == saws;
  }

  lemma OpenStream<A, R>(saws: seq<Saw<A, R>>, saw: Saw<A, R>)
    ensures StreamOpen<A, R>(true, [])
    ensures StreamOpen(true, saws + [saw]) <==> StreamOpen(true, saws) && !saw.StreamEnded?
  {
    var next := saws + [saw];
    assert next[|saws|] == saw;
    assert forall j :: 0 <= j < |saws| ==> next[j] == saws[j];
  }

  lemma NoStream<A, R>(saws: seq<Saw<A, R>>)
    ensures !StreamOpen(false, saws)
  {
  }

  lemma SeesStream<A, R>(before: Ledger<Payload<A, R>>, w: Wake<A, R>, saw: Saw<A, R>, turn: nat)
    requires saw.Item? || saw.StreamEnded?
    ensures Sees(before, w, saw) && Left(before, w, saw, turn) == before
  {
  }

  lemma HandlerDid<A, R>(
    cfg: Config<A>, w: Wake<A, R>, saw: Saw<A, R>, script: Script<A, R>, a: A, t: Turn<A, R>, res: Finish<A>)
    requires saw == Item(script) || (saw.Took? && saw.payload.Task? && saw.payload.script == script)
    requires HandlerRan(cfg, w.course, script, a, t) && HandlerDecides(cfg, w, res)
    ensures Did(cfg, w, saw, a, t) && Decides(cfg, w, saw, res)
  {
  }

  lemma SeenMore<A, R>(
    cfg: Config<A>, first: Ledger<Payload<A, R>>, env: seq<Wake<A, R>>, saws: seq<Saw<A, R>>, saw: Saw<A, R>)
    requires |saws| < |env| && Fed(first, env, saws) && Served(cfg.onStream, env, saws)
    requires Sees(MailboxAfter(first, env, saws), env[|saws|], saw)
    requires AtArm(env[|saws|], saw, StreamOpen(cfg.onStream, saws))
    ensures Fed(first, env, saws + [saw]) && Served(cfg.onStream, env, saws + [saw])
  {
    hide Sees, AtArm, MailboxAfter, StreamOpen;
    var next := saws + [saw];
    forall i | 0 <= i < |next|
      ensures Sees(MailboxAfter(first, env, next[..i]), env[i], next[i])
      ensures AtArm(env[i], next[i], StreamOpen(cfg.onStream, next[..i]))
    {
      assert next[..i] == saws[..i];
      if i == |saws| {
        assert saws[..i] == saws;
      }
    }
  }

  lemma {:induction false} TurnedCount<A, R>(
    cfg: Config<A>, env: seq<Wake<A, R>>, saws: seq<Saw<A, R>>, turns: seq<Turn<A, R>>)
    requires |saws| <= |env| && Turned(cfg, env, saws, turns)
    ensures |turns| == TurnCount(saws)
    decreases |saws|
  {
    if saws != [] {
      var n := |saws| - 1;
      TurnedCount(cfg, env, saws[..n], if Busies(saws[n]) then turns[..|turns| - 1] else turns);
    }
  }

  lemma DecidedOn<A, R>(cfg: Config<A>, env: seq<Wake<A, R>>, saws: seq<Saw<A, R>>, saw: Saw<A, R>)
    requires |saws| < |env| && GoesOn(cfg, env, saws, |saws|) && Decides(cfg, env[|saws|], saw, Suspended)
    ensures GoesOn(cfg, env, saws + [saw], |saws| + 1)
  {
    hide Decides;
    var next := saws + [saw];
    forall i | 0 <= i < |next|
      ensures Decides(cfg, env[i], next[i], Suspended)
    {
      if i < |saws| {
        assert next[i] == saws[i];
      }
    }
  }

  lemma DecidedWaits<A, R>(cfg: Config<A>, env: seq<Wake<A, R>>, saws: seq<Saw<A, R>>)
    requires |saws| == |env| && GoesOn(cfg, env, saws, |saws|)
    ensures Decided(cfg, env, saws, Suspended)
  {
    hide Decides;
  }

  lemma DecidedNow<A, R>(cfg: Config<A>, env: seq<Wake<A, R>>, saws: seq<Saw<A, R>>, saw: Saw<A, R>, res: Finish<A>)
    requires |saws| < |env| && GoesOn(cfg, env, saws, |saws|) && Decides(cfg, env[|saws|], saw, res) && !res.Suspended?
    ensures Decided(cfg, env, saws + [saw], res)
  {
    hide Decides;
    var next := saws + [saw];
    forall i | 0 <= i < |saws|
      ensures Decides(cfg, env[i], next[i], Suspended)
    {
      assert next[i] == saws[i];
    }
  }

  // ----- what a play is determined by -----

  /** The first wake-up with a panic, a failing timeout or restart, a Stop or the end of the channel is the last. */
  lemma FirstEnds<A, R>(cfg: Config<A>, env: seq<Wake<A, R>>, saws: seq<Saw<A, R>>, res: Finish<A>, i: nat)
    requires |saws| <= |env| && Decided(cfg, env, saws, res) && i < |saws|
    ensures var w, saw := env[i], saws[i];
            && (saw.Item? || (saw.Took? && saw.payload.Task?) ==>
                  && (w.course.PanicAfter? ==> res == Crashed)
                  && (w.course.TimerAfter? && cfg.timeout && cfg.failOnTimeout ==>
                        res == if w.down.Panics? then Crashed else Failed))
            && (saw.Closed? || (saw.Took? && saw.payload.Stop?) ==> if w.down.Panics? then res == Crashed else res.Returned?)
            && (saw.Took? && saw.payload.Restart? && !cfg.strategy.NonRestartable? && !cfg.onStream ==>
                  && (w.down.Panics? || w.up.Panics? ==> res == Crashed)
                  && (!w.down.Panics? && w.up.Fails? ==> res == Failed))
            && (saw.Took? && saw.payload.Restart? && cfg.onStream ==> res == Crashed)
            && (saw.StreamEnded? && w.down.Panics? ==> res == Crashed)
    ensures !Decides(cfg, env[i], saws[i], Suspended) ==> i == |saws| - 1
  {
    assert i < |saws| - 1 ==> Decides(cfg, env[i], saws[i], Suspended);
  }

  /** Two turns of the same work that went the same way. */
  ghost predicate SameTurn<A, R>(t: Turn<A, R>, u: Turn<A, R>) {
    t.work == u.work && t.ran == u.ran && t.outcome == u.outcome
  }

  ghost predicate SameTurns<A, R>(ts: seq<Turn<A, R>>, us: seq<Turn<A, R>>) {
    |ts| == |us| && forall p :: 0 <= p < |ts| ==> SameTurn(ts[p], us[p])
  }

  lemma {:induction false} SameReplay<A, R>(cfg: Config<A>, ts: seq<Turn<A, R>>, us: seq<Turn<A, R>>)
    requires SameTurns(ts, us)
    ensures Replay(cfg, ts) == Replay(cfg, us)
  {
    if ts != [] {
      assert SameTurn(ts[|ts| - 1], us[|us| - 1]);
      SameReplay(cfg, ts[..|ts| - 1], us[..|us| - 1]);
    }
  }

  /** Plays of one environment agree on what they see and do, as long as both last. */
  lemma {:induction false} SamePlay<A, R>(
    cfg: Config<A>, first: Ledger<Payload<A, R>>, env: seq<Wake<A, R>>,
    saws: seq<Saw<A, R>>, ts: seq<Turn<A, R>>, saws': seq<Saw<A, R>>, us: seq<Turn<A, R>>)
    requires Played(cfg, first, env, saws, ts) && Played(cfg, first, env, saws', us) && |saws| == |saws'|
    ensures saws == saws' && SameTurns(ts, us)
    decreases |saws|
  {
    hide Played, SameTurns;
    if saws == [] {
      NoTurns(cfg, first, env, ts);
      NoTurns(cfg, first, env, us);
    } else {
      var ts' := PlayedPrefix(cfg, first, env, saws, ts);
      var us' := PlayedPrefix(cfg, first, env, saws', us);
      SamePlay(cfg, first, env, saws[..|saws| - 1], ts', saws'[..|saws| - 1], us');
      SameNext(cfg, first, env, saws, ts, ts', saws', us, us');
    }
  }

  lemma NoTurns<A, R>(cfg: Config<A>, first: Ledger<Payload<A, R>>, env: seq<Wake<A, R>>, ts: seq<Turn<A, R>>)
    requires Played(cfg, first, env, [], ts)
    ensures ts == [] && SameTurns(ts, [])
  {
  }

  lemma SameNext<A, R>(
    cfg: Config<A>, first: Ledger<Payload<A, R>>, env: seq<Wake<A, R>>,
    saws: seq<Saw<A, R>>, ts: seq<Turn<A, R>>, ts': seq<Turn<A, R>>,
    saws': seq<Saw<A, R>>, us: seq<Turn<A, R>>, us': seq<Turn<A, R>>)
    requires 0 < |saws| == |saws'| <= |env| && saws[..|saws| - 1] == saws'[..|saws| - 1] && SameTurns(ts', us')
    requires Ends(cfg, first, env, saws, ts, ts') && Ends(cfg, first, env, saws', us, us')
    ensures saws == saws' && SameTurns(ts, us)
  {
    hide Sees, AtArm, MailboxAfter, Did, StreamOpen, SameTurns, SameTurn, Replay;
    var n := |saws| - 1;
    SameSight(MailboxAfter(first, env, saws[..n]), env[n], saws[n], saws'[n], StreamOpen(cfg.onStream, saws[..n]));
    assert saws == saws[..n] + [saws[n]] && saws' == saws'[..n] + [saws'[n]];
    if Busies(saws[n]) {
      SameReplay(cfg, ts', us');
      SameDeed(cfg, env[n], saws[n], Replay(cfg, ts'), ts[|ts'|], us[|us'|]);
      SameTurnsSnoc(ts', us', ts[|ts'|], us[|us'|]);
    }
  }

  /** The last wake-up of a play, and the turns before it. */
  ghost predicate Ends<A, R>(
    cfg: Config<A>, first: Ledger<Payload<A, R>>, env: seq<Wake<A, R>>, saws: seq<Saw<A, R>>,
    turns: seq<Turn<A, R>>, init: seq<Turn<A, R>>)
    requires 0 < |saws| <= |env|
  {
    var n := |saws| - 1;
    && Sees(MailboxAfter(first, env, saws[..n]), env[n], saws[n])
    && AtArm(env[n], saws[n], StreamOpen(cfg.onStream, saws[..n]))
    && if Busies(saws[n])
       then |turns| == |init| + 1 && turns == init + [turns[|init|]]
            && Did(cfg, env[n], saws[n], Replay(cfg, init), turns[|init|])
       else turns == init
  }

  lemma SameTurnsSnoc<A, R>(ts: seq<Turn<A, R>>, us: seq<Turn<A, R>>, t: Turn<A, R>, u: Turn<A, R>)
    requires SameTurns(ts, us) && SameTurn(t, u)
    ensures SameTurns(ts + [t], us + [u])
  {
  }

  lemma PlayedPrefix<A, R>(
    cfg: Config<A>, first: Ledger<Payload<A, R>>, env: seq<Wake<A, R>>, saws: seq<Saw<A, R>>, turns: seq<Turn<A, R>>)
    returns (init: seq<Turn<A, R>>)
    requires Played(cfg, first, env, saws, turns) && saws != []
    ensures |saws| <= |env| && Played(cfg, first, env, saws[..|saws| - 1], init)
    ensures Ends(cfg, first, env, saws, turns, init)
  {
    hide Sees, AtArm, MailboxAfter, Did, StreamOpen;
    var n := |saws| - 1;
    init := if Busies(saws[n]) then turns[..|turns| - 1] else turns;
    forall i | 0 <= i < n
      ensures Sees(MailboxAfter(first, env, saws[..n][..i]), env[i], saws[..n][i])
      ensures AtArm(env[i], saws[..n][i], StreamOpen(cfg.onStream, saws[..n][..i]))
    {
      assert saws[..n][..i] == saws[..i];
    }
  }

  lemma SameSight<A, R>(before: Ledger<Payload<A, R>>, w: Wake<A, R>, saw: Saw<A, R>, saw': Saw<A, R>, open: bool)
    requires Sees(before, w, saw) && Sees(before, w, saw') && AtArm(w, saw, open) && AtArm(w, saw', open)
    ensures saw == saw'
  {
  }

  lemma SameDeed<A, R>(cfg: Config<A>, w: Wake<A, R>, saw: Saw<A, R>, a: A, t: Turn<A, R>, u: Turn<A, R>)
    requires Did(cfg, w, saw, a, t) && Did(cfg, w, saw, a, u)
    ensures SameTurn(t, u)
  {
  }

  /**
   * The environment alone determines a loop: two that play and decide on the same one saw the same, took the
   * same turns and resolve alike.
   */
  lemma Determined<A, R>(
    cfg: Config<A>, first: Ledger<Payload<A, R>>, env: seq<Wake<A, R>>,
    saws: seq<Saw<A, R>>, ts: seq<Turn<A, R>>, res: Finish<A>, saws': seq<Saw<A, R>>, us: seq<Turn<A, R>>, res': Finish<A>)
    requires Played(cfg, first, env, saws, ts) && Decided(cfg, env, saws, res)
    requires Played(cfg, first, env, saws', us) && Decided(cfg, env, saws', res')
    ensures saws == saws' && SameTurns(ts, us) && Replay(cfg, ts) == Replay(cfg, us)
    ensures res.Returned? == res'.Returned? && res.Failed? == res'.Failed? && res.Crashed? == res'.Crashed?
  {
    hide Played, SameTurns, Replay, Decided, Decides;
    PlayedFits(cfg, first, env, saws, ts);
    PlayedFits(cfg, first, env, saws', us);
    if |saws| <= |saws'| {
      var us' := PrefixPlayed(cfg, first, env, saws', us, |saws|);
      SamePlay(cfg, first, env, saws, ts, saws'[..|saws|], us');
      NotLonger(cfg, env, saws, res, saws', res');
    } else {
      var ts' := PrefixPlayed(cfg, first, env, saws, ts, |saws'|);
      SamePlay(cfg, first, env, saws', us, saws[..|saws'|], ts');
      NotLonger(cfg, env, saws', res', saws, res);
    }
    SamePlay(cfg, first, env, saws, ts, saws', us);
    SameReplay(cfg, ts, us);
    SameEnd(cfg, env, saws, res, res');
  }

  /** A loop that decided does not go on. */
  lemma NotLonger<A, R>(
    cfg: Config<A>, env: seq<Wake<A, R>>, saws: seq<Saw<A, R>>, res: Finish<A>, saws': seq<Saw<A, R>>, res': Finish<A>)
    requires |saws| <= |saws'| <= |env| && saws == saws'[..|saws|]
    requires Decided(cfg, env, saws, res) && Decided(cfg, env, saws', res')
    ensures |saws| == |saws'|
  {
    hide Decides;
    var n := |saws| - 1;
    if 0 < |saws| < |saws'| {
      DecidesOnce(cfg, env[n], saws'[n], res, Suspended);
    }
  }

  lemma DecidesOnce<A, R>(cfg: Config<A>, w: Wake<A, R>, saw: Saw<A, R>, res: Finish<A>, res': Finish<A>)
    requires Decides(cfg, w, saw, res) && Decides(cfg, w, saw, res')
    ensures res.Suspended? == res'.Suspended? && res.Returned? == res'.Returned?
    ensures res.Failed? == res'.Failed? && res.Crashed? == res'.Crashed?
  {
  }

  lemma SameEnd<A, R>(cfg: Config<A>, env: seq<Wake<A, R>>, saws: seq<Saw<A, R>>, res: Finish<A>, res': Finish<A>)
    requires |saws| <= |env| && Decided(cfg, env, saws, res) && Decided(cfg, env, saws, res')
    ensures res.Returned? == res'.Returned? && res.Failed? == res'.Failed? && res.Crashed? == res'.Crashed?
  {
    if saws != [] {
      DecidesOnce(cfg, env[|saws| - 1], saws[|saws| - 1], res, res');
    }
  }

  lemma {:induction false} PrefixPlayed<A, R>(
    cfg: Config<A>, first: Ledger<Payload<A, R>>, env: seq<Wake<A, R>>, saws: seq<Saw<A, R>>, turns: seq<Turn<A, R>>,
    n: nat) returns (init: seq<Turn<A, R>>)
    requires Played(cfg, first, env, saws, turns) && n <= |saws|
    ensures Played(cfg, first, env, saws[..n], init)
    decreases |saws|
  {
    hide Played, Ends;
    PrefixOfPrefix(saws, n);
    if n == |saws| {
      init := turns;
    } else {
      PlayedFits(cfg, first, env, saws, turns);
      init := PlayedPrefix(cfg, first, env, saws, turns);
      init := PrefixPlayed(cfg, first, env, saws[..|saws| - 1], init, n);
    }
  }

  lemma PrefixOfPrefix<T>(s: seq<T>, n: nat)
    requires n <= |s|
    ensures s[..|s|] == s && (n < |s| ==> s[..|s| - 1][..n] == s[..n])
  {
  }

  lemma PlayedFits<A, R>(
    cfg: Config<A>, first: Ledger<Payload<A, R>>, env: seq<Wake<A, R>>, saws: seq<Saw<A, R>>, turns: seq<Turn<A, R>>)
    requires Played(cfg, first, env, saws, turns)
    ensures |saws| <= |env|
  {
  }
}

/**
 * What an actor does, without concurrency: its hooks, its handlers as finite lists of micro-steps
 * between await points, the restart strategies, and the sequential meaning `Replay` of a list of turns.
 */
module Behaviour {
  import opened Base

  /** A handler or stream handler: micro-steps on the actor, then the value it returns. */
  datatype Script<!A, !R> = Script(steps: seq<A -> A>, answer: A -> R)

  /** `blank` is `Default::default()`. */
  datatype Hooks<!A> = Hooks(started: A -> A, stopped: A -> A, cancelled: A -> A, finished: A -> A, blank: A)

  datatype Strategy = NonRestartable | RestartOnly | RecreateFromDefault

  datatype Config<!A> = Config(
    init: A,
    hooks: Hooks<A>,
    strategy: Strategy,
    capacity: Option<nat>,
    timeout: bool,
    failOnTimeout: bool,
    onStream: bool)

  /** Where a turn of the loop came from: the n-th accepted payload, or the n-th stream item. */
  datatype Source = Mailbox(entry: nat) | Stream(item: nat)

  datatype Work<!A, !R> = Run(script: Script<A, R>) | Refresh | Halt | Conclude

  /** `Broken` covers a panic and a failing `started` during a restart. */
  datatype Outcome<+R> = Pending | Completed(answer: Option<R>) | Cut | Broken

  /** One turn of the event loop; `ran` counts the micro-steps (or restart stages) performed so far. */
  datatype Turn<!A, !R> = Turn(source: Source, work: Work<A, R>, ran: nat, outcome: Outcome<R>)

  function RunSteps<A>(steps: seq<A -> A>, a: A): A {
    if steps == [] then a else steps[|steps| - 1](RunSteps(steps[..|steps| - 1], a))
  }

  /** The actor after `stage` stages of `R::refresh`: `stopped` (and replacement), then `started`. */
  function RefreshStage<A>(cfg: Config<A>, stage: nat, a: A): A {
    var down := if cfg.strategy.RecreateFromDefault? then cfg.hooks.blank else cfg.hooks.stopped(a);
    if cfg.strategy.NonRestartable? || stage == 0 then a
    else if stage == 1 then down
    else cfg.hooks.started(down)
  }

  /** The effect of one turn, as far as it got, on the actor. */
  function TurnEffect<A, R>(cfg: Config<A>, t: Turn<A, R>, a: A): A {
    match t.work
    case Run(script) => RunSteps(script.steps[..Min(t.ran, |script.steps|)], a)
    case Refresh => RefreshStage(cfg, t.ran, a)
    case Conclude => if t.ran == 0 then a else cfg.hooks.finished(a)
    case Halt => a
  }

  /** The sequential meaning of a list of turns: start the actor, then apply each turn in order. */
  function Replay<A, R>(cfg: Config<A>, turns: seq<Turn<A, R>>): A {
    if turns == [] then cfg.hooks.started(cfg.init)
    else TurnEffect(cfg, turns[|turns| - 1], Replay(cfg, turns[..|turns| - 1]))
  }

  lemma ReplaySnoc<A, R>(cfg: Config<A>, turns: seq<Turn<A, R>>, t: Turn<A, R>)
    ensures Replay(cfg, turns + [t]) == TurnEffect(cfg, t, Replay(cfg, turns))
  {
    assert (turns + [t])[..|turns|] == turns;
  }

  lemma RunStepsSnoc<A>(steps: seq<A -> A>, k: nat, a: A)
    requires k < |steps|
    ensures RunSteps(steps[..k + 1], a) == steps[k](RunSteps(steps[..k], a))
  {
    assert steps[..k + 1][..k] == steps[..k];
  }
}

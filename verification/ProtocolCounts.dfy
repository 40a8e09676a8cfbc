/**
 * What a run comes to in numbers: the references that handles and operations hold, the hooks that turns ran,
 * and what each join got.
 */
module ProtocolCounts {
  import opened Base
  import opened Mailbox
  import opened Behaviour
  import L = Lifecycle
  import opened Protocol
  import opened LoopInvariants
  import opened ProtocolInvariants
  import opened ClientInvariants
  import opened ProtocolTheorems

  // ----- references -----

  function LiveHandles(hs: seq<Handle>, kind: Kind): nat {
    if hs == [] then 0
    else LiveHandles(hs[..|hs| - 1], kind) + if hs[|hs| - 1].live && hs[|hs| - 1].kind == kind then 1 else 0
  }

  /** Operations that hold a reference of their own: a sender's `send`, a caller's `call`, an upgraded context. */
  function InFlight<A, R>(ops: seq<Op<A, R>>): nat {
    if ops == [] then 0
    else
      var op := ops[|ops| - 1];
      var pending := op.pc.Start? || op.pc.Cleared? || op.pc.Waiting?;
      InFlight(ops[..|ops| - 1])
      + if (op.api in {SenderSend, CallerCall} && pending) || (op.api in {CtxStop, CtxRestart} && op.pc.Cleared?)
        then 1 else 0
  }

  lemma {:induction false} HandlesCounted(hs: seq<Handle>)
    ensures Sum(HandleRefsOf(hs)) == LiveHandles(hs, KAddr) + 3 * LiveHandles(hs, KSender) + LiveHandles(hs, KCaller)
  {
    if hs != [] {
      var init, h := hs[..|hs| - 1], hs[|hs| - 1];
      HandlesCounted(init);
      assert HandleRefsOf(hs)[..|init|] == HandleRefsOf(init);
    }
  }

  lemma {:induction false} InFlightCounted<A, R>(ops: seq<Op<A, R>>)
    ensures Sum(OpRefsOf(ops)) == InFlight(ops)
  {
    if ops != [] {
      var init := ops[..|ops| - 1];
      InFlightCounted(init);
      assert OpRefsOf(ops)[..|init|] == OpRefsOf(init);
    }
  }

  /**
   * The strong count of the mailbox is the live addresses, three for each live sender, the live callers and
   * the operations that hold a reference of their own; weak handles, contexts and idle timers count nothing.
   */
  lemma ReferencesCounted<A, R>(cfg: Config<A>, ls: seq<Label<A, R>>, s: State<A, R>)
    requires Reaches(cfg, ls, s)
    ensures s.led.box.strong
            == LiveHandles(s.handles, KAddr) + 3 * LiveHandles(s.handles, KSender) + LiveHandles(s.handles, KCaller)
               + InFlight(s.ops)
  {
    hide LiveHandles, InFlight, HandleRefsOf, OpRefsOf;
    ReferencesExact(cfg, ls, s);
    HandlesCounted(s.handles);
    InFlightCounted(s.ops);
  }

  // ----- hooks -----

  /** How often turn `t` calls hook `h`. */
  function Calls<A, R>(cfg: Config<A>, t: Turn<A, R>, h: L.Hook): nat {
    var restarts := t.work.Refresh? && !cfg.strategy.NonRestartable? && !cfg.onStream;
    var called :=
      match h
      case Handling => t.work.Run?
      case Finished => t.work.Conclude?
      case Cancelled => t.work.Run? && t.outcome.Cut? && cfg.failOnTimeout
      case Stopped => t.work.Halt? || restarts
      case Started => restarts && t.ran >= 1;
    if called then 1 else 0
  }

  function AllCalls<A, R>(cfg: Config<A>, turns: seq<Turn<A, R>>, h: L.Hook): nat {
    if turns == [] then 0
    else AllCalls(cfg, turns[..|turns| - 1], h) + Calls(cfg, turns[|turns| - 1], h)
  }

  lemma {:induction false} CountConcat(a: seq<L.Hook>, b: seq<L.Hook>, h: L.Hook)
    ensures L.Count(a + b, h) == L.Count(a, h) + L.Count(b, h)
  {
    if b == [] {
      assert a + b == a;
    } else {
      CountConcat(a, b[..|b| - 1], h);
      assert (a + b)[..|a + b| - 1] == a + b[..|b| - 1];
    }
  }

  lemma TurnCalls<A, R>(cfg: Config<A>, t: Turn<A, R>, h: L.Hook)
    ensures L.Count(TurnHooks(cfg, t), h) == Calls(cfg, t, h)
  {
    forall a: L.Hook, b: L.Hook
      ensures L.Count([a], h) == (if a == h then 1 else 0)
      ensures L.Count([a, b], h) == (if a == h then 1 else 0) + if b == h then 1 else 0
    {
      assert [a][..0] == [] && [a, b][..1] == [a];
    }
  }

  lemma {:induction false} TraceCalls<A, R>(cfg: Config<A>, turns: seq<Turn<A, R>>, h: L.Hook)
    ensures L.Count(TraceOf(cfg, turns), h) == (if h.Started? then 1 else 0) + AllCalls(cfg, turns, h)
  {
    if turns == [] {
      assert [L.Started][..0] == [];
    } else {
      TraceCalls(cfg, turns[..|turns| - 1], h);
      CountConcat(TraceOf(cfg, turns[..|turns| - 1]), TurnHooks(cfg, turns[|turns| - 1]), h);
      TurnCalls(cfg, turns[|turns| - 1], h);
    }
  }

  /**
   * How often each hook was called: `started` once for the start and once for each restart that got there,
   * `stopped` for each restart, for a Stop and at the end of the channel, `finished` for the end of the
   * stream, `cancelled` for a handler cut by a failing timeout, and every handler once for its turn.
   */
  lemma HooksCounted<A, R>(cfg: Config<A>, ls: seq<Label<A, R>>, s: State<A, R>, h: L.Hook)
    requires Reaches(cfg, ls, s) && !s.loop.phase.Spawned?
    ensures !h.Stopped? ==>
              L.Count(s.loop.trace, h) == (if h.Started? then 1 else 0) + AllCalls(s.cfg, s.loop.turns, h)
    ensures h.Stopped? && !s.loop.exit.Panicked? ==>
              L.Count(s.loop.trace, h) == (if s.loop.exit.ByChannelEnd? then 1 else 0) + AllCalls(s.cfg, s.loop.turns, h)
    ensures h.Stopped? && s.loop.exit.Panicked? ==>
              AllCalls(s.cfg, s.loop.turns, h) <= L.Count(s.loop.trace, h) <= 1 + AllCalls(s.cfg, s.loop.turns, h)
  {
    hide TraceOf, AllCalls, L.Count;
    LifecycleLanguage(cfg, ls, s);
    TraceCalls(s.cfg, s.loop.turns, h);
    OneMore(TraceOf(s.cfg, s.loop.turns), h);
  }

  lemma OneMore(trace: seq<L.Hook>, h: L.Hook)
    ensures L.Count(trace + [L.Stopped], h) == L.Count(trace, h) + if h.Stopped? then 1 else 0
  {
    assert (trace + [L.Stopped])[..|trace|] == trace;
  }

  // ----- joins -----

  /** The first join gets the final actor exactly if the loop ended normally, and no other join gets anything. */
  lemma JoinExact<A, R>(cfg: Config<A>, ls: seq<Label<A, R>>, s: State<A, R>, j: nat)
    requires Reaches(cfg, ls, s) && j < |s.joins| && s.joins[j].Joined?
    ensures j > 0 ==> s.joins[j].actor.None?
    ensures j == 0 ==> s.loop.phase.Ended?
                       && s.joins[0].actor == if s.loop.exit.ByStop? || s.loop.exit.ByChannelEnd?
                                              then Some(s.cfg.hooks.stopped(Replay(s.cfg, s.loop.turns))) else None
  {
    Reachable(cfg, ls);
  }
}

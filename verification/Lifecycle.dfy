/**
 * The language of hook and handler invocations an actor may show, as a finite automaton,
 * and what acceptance by it says about the counts of hooks.
 */
module Lifecycle {

  datatype Hook = Started | Stopped | Cancelled | Finished | Handling

  /** Init: nothing ran yet.  Up: `started` was the last lifecycle hook.  Down: `stopped` was. */
  datatype Mode = Init | Up | Down | Aborted | Illegal

  function Delta(m: Mode, h: Hook): Mode {
    match (m, h)
    case (Init, Started) => Up
    case (Up, Handling) => Up
    case (Up, Finished) => Up
    case (Up, Stopped) => Down
    case (Up, Cancelled) => Aborted
    case (Down, Started) => Up
    case _ => Illegal
  }

  function Run(trace: seq<Hook>): Mode {
    if trace == [] then Init else Delta(Run(trace[..|trace| - 1]), trace[|trace| - 1])
  }

  function Count(trace: seq<Hook>, h: Hook): nat {
    if trace == [] then 0
    else Count(trace[..|trace| - 1], h) + if trace[|trace| - 1] == h then 1 else 0
  }

  lemma RunSnoc(trace: seq<Hook>, h: Hook)
    ensures Run(trace + [h]) == Delta(Run(trace), h)
  {
    assert (trace + [h])[..|trace|] == trace;
  }

  /** An illegal trace stays illegal, so every prefix of a legal one is legal. */
  lemma {:induction false} LegalPrefix(trace: seq<Hook>, k: nat)
    requires k <= |trace| && Run(trace) != Illegal
    ensures Run(trace[..k]) != Illegal
  {
    if k == |trace| {
      assert trace[..k] == trace;
    } else {
      LegalPrefix(trace[..|trace| - 1], k);
      assert trace[..|trace| - 1][..k] == trace[..k];
    }
  }

  /** Each mode fixes how often `started`, `stopped` and `cancelled` were invoked. */
  lemma {:induction false} ModeCounts(trace: seq<Hook>)
    requires Run(trace) != Illegal
    ensures Run(trace).Init? ==> trace == []
    ensures Run(trace).Up? ==> Count(trace, Started) == Count(trace, Stopped) + 1
    ensures Run(trace).Down? ==> Count(trace, Started) == Count(trace, Stopped) > 0
    ensures Run(trace).Aborted? <==> Count(trace, Cancelled) == 1
    ensures !Run(trace).Aborted? ==> Count(trace, Cancelled) == 0
    ensures Run(trace).Aborted? ==>
              trace[|trace| - 1] == Cancelled && Count(trace, Started) == Count(trace, Stopped) + 1
  {
    if trace != [] {
      ModeCounts(trace[..|trace| - 1]);
    }
  }

  /**
   * In a legal trace every `started` but the first follows a `stopped` immediately,
   * handlers and `finished` only run while the actor is up, and `cancelled` is last.
   */
  lemma {:induction false} LegalOrder(trace: seq<Hook>, i: nat)
    requires Run(trace) != Illegal && i < |trace|
    ensures trace[i] == Started <==> i == 0 || trace[i - 1] == Stopped
    ensures trace[i] == Cancelled ==> i == |trace| - 1
    ensures trace[i] in {Handling, Finished, Stopped, Cancelled} ==> i > 0 && trace[i - 1] in {Started, Handling, Finished}
  {
    LegalPrefix(trace, i + 1);
    LegalPrefix(trace, i);
    assert trace[..i + 1][..i] == trace[..i];
    if i > 0 {
      LegalPrefix(trace, i - 1);
      assert trace[..i][..i - 1] == trace[..i - 1];
    }
    if i + 1 < |trace| {
      LegalPrefix(trace, i + 2);
      assert trace[..i + 2][..i + 1] == trace[..i + 1];
    }
  }
}

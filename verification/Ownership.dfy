/**
 * Actors that keep other actors alive.  A context owns its children through strong senders, so shutting
 * down a parent is reference counting over the ownership graph: the loop of an actor ends once its
 * mailbox has no strong reference left, its context is dropped, and the references in it go one by one.
 */
module Ownership {
  import opened Base

  /** `held[j][i]` counts the references to actor j in the context of actor i; `outside[j]` all others. */
  datatype World = World(alive: seq<bool>, outside: seq<nat>, strong: seq<nat>, held: seq<seq<nat>>)

  predicate Shape(w: World) {
    && |w.alive| == |w.outside| == |w.strong| == |w.held|
    && forall j :: 0 <= j < |w.held| ==> |w.held[j]| == |w.held|
  }

  /** Every mailbox counts exactly the references that exist. */
  ghost predicate Accounted(w: World) {
    && Shape(w)
    && forall j :: 0 <= j < |w.strong| ==> w.strong[j] == w.outside[j] + Sum(w.held[j])
  }

  /** A loop ends for want of references, or a dropped context lets one reference go. */
  datatype Label = Exit(actor: nat) | Release(owner: nat, child: nat)

  predicate Enabled(w: World, l: Label)
    requires Shape(w)
  {
    match l
    case Exit(i) => i < |w.alive| && w.alive[i] && w.strong[i] == 0
    case Release(i, j) => i < |w.alive| && j < |w.alive| && !w.alive[i] && w.held[j][i] > 0 && w.strong[j] > 0
  }

  function Step(w: World, l: Label): World
    requires Shape(w) && Enabled(w, l)
  {
    match l
    case Exit(i) => w.(alive := w.alive[i := false])
    case Release(i, j) =>
      w.(held := w.held[j := w.held[j][i := w.held[j][i] - 1]], strong := w.strong[j := w.strong[j] - 1])
  }

  lemma StepAccounted(w: World, l: Label)
    requires Accounted(w) && Enabled(w, l)
    ensures Accounted(Step(w, l))
  {
    if l.Release? {
      SumUpdate(w.held[l.child], l.owner, w.held[l.child][l.owner] - 1);
    }
  }

  ghost predicate IsRun(w: World, ls: seq<Label>)
    decreases |ls|
  {
    ls == [] || (Accounted(w) && Enabled(w, ls[0]) && Accounted(Step(w, ls[0])) && IsRun(Step(w, ls[0]), ls[1..]))
  }

  ghost function After(w: World, ls: seq<Label>): World
    requires IsRun(w, ls)
    decreases |ls|
  {
    if ls == [] then w else After(Step(w, ls[0]), ls[1..])
  }

  // ----- the cascade ends -----

  function AliveCount(alive: seq<bool>): nat {
    if alive == [] then 0 else AliveCount(alive[..|alive| - 1]) + if alive[|alive| - 1] then 1 else 0
  }

  /** The actors alive and the references in contexts: what the cascade can still take away. */
  ghost function Remaining(w: World): nat
    requires Shape(w)
  {
    AliveCount(w.alive) + Sum(RowSums(w.held))
  }

  function RowSums(held: seq<seq<nat>>): seq<nat> {
    seq(|held|, j requires 0 <= j < |held| => Sum(held[j]))
  }

  lemma {:induction false} AliveUpdate(alive: seq<bool>, i: nat)
    requires i < |alive| && alive[i]
    ensures AliveCount(alive[i := false]) == AliveCount(alive) - 1
  {
    var n := |alive| - 1;
    if i == n {
      assert alive[i := false][..n] == alive[..n];
    } else {
      AliveUpdate(alive[..n], i);
      assert alive[i := false][..n] == alive[..n][i := false];
    }
  }

  lemma StepDecreases(w: World, l: Label)
    requires Accounted(w) && Enabled(w, l)
    ensures Accounted(Step(w, l)) && Remaining(Step(w, l)) == Remaining(w) - 1
  {
    StepAccounted(w, l);
    match l {
      case Exit(i) => AliveUpdate(w.alive, i);
      case Release(i, j) =>
        var row := w.held[j][i := w.held[j][i] - 1];
        SumUpdate(w.held[j], i, w.held[j][i] - 1);
        SumUpdate(RowSums(w.held), j, Sum(row));
        assert RowSums(w.held[j := row]) == RowSums(w.held)[j := Sum(row)];
    }
  }

  /** Every run of the cascade is finite: each step takes one actor or one reference away. */
  lemma {:induction false} CascadeTerminates(w: World, ls: seq<Label>)
    requires Accounted(w) && IsRun(w, ls)
    ensures Accounted(After(w, ls)) && |ls| + Remaining(After(w, ls)) == Remaining(w)
    decreases |ls|
  {
    if ls != [] {
      StepDecreases(w, ls[0]);
      CascadeTerminates(Step(w, ls[0]), ls[1..]);
    }
  }

  ghost predicate Quiescent(w: World)
    requires Shape(w)
  {
    forall l :: !Enabled(w, l)
  }

  // ----- what survives -----

  /** A set of live actors each of which is referenced from outside or from a context in the set. */
  ghost predicate Supported(w: World, s: set<nat>)
    requires Shape(w)
  {
    forall j :: j in s ==>
      && j < |w.alive| && w.alive[j]
      && (w.outside[j] > 0 || exists i :: i in s && i < |w.alive| && w.held[j][i] > 0)
  }

  lemma HoldsOpen(w: World, i: nat, j: nat)
    requires Accounted(w) && i < |w.alive| && j < |w.alive| && w.held[j][i] > 0
    ensures w.strong[j] > 0
  {
    SumPositive(w.held[j]);
  }

  lemma SupportedStep(w: World, l: Label, s: set<nat>)
    requires Accounted(w) && Enabled(w, l) && Supported(w, s)
    ensures Accounted(Step(w, l)) && Supported(Step(w, l), s)
  {
    StepAccounted(w, l);
    var v := Step(w, l);
    forall j | j in s
      ensures j < |v.alive| && v.alive[j] && (v.outside[j] > 0 || exists i :: i in s && i < |v.alive| && v.held[j][i] > 0)
    {
      if w.outside[j] == 0 {
        var i :| i in s && i < |w.alive| && w.held[j][i] > 0;
        HoldsOpen(w, i, j);
        assert v.held[j][i] > 0;
      }
    }
  }

  /** Safety, on any graph: no member of a supported set ever loses its last reference. */
  lemma {:induction false} SupportedSurvive(w: World, ls: seq<Label>, s: set<nat>)
    requires Accounted(w) && IsRun(w, ls) && Supported(w, s)
    ensures Accounted(After(w, ls)) && Supported(After(w, ls), s)
    ensures forall j :: j in s ==> j < |After(w, ls).strong| && After(w, ls).strong[j] > 0
    decreases |ls|
  {
    if ls != [] {
      SupportedStep(w, ls[0], s);
      SupportedSurvive(Step(w, ls[0]), ls[1..], s);
    } else {
      forall j | j in s
        ensures w.strong[j] > 0
      {
        if w.outside[j] == 0 {
          var i :| i in s && i < |w.alive| && w.held[j][i] > 0;
          HoldsOpen(w, i, j);
        }
      }
    }
  }

  function Living(w: World): set<nat> {
    set j: nat | j < |w.alive| && w.alive[j]
  }

  /** Once nothing more can happen, the survivors support each other. */
  lemma SurvivorsSupported(w: World)
    requires Accounted(w) && Quiescent(w)
    ensures Supported(w, Living(w))
  {
    forall j | j in Living(w)
      ensures w.outside[j] > 0 || exists i :: i in Living(w) && i < |w.alive| && w.held[j][i] > 0
    {
      assert !Enabled(w, Exit(j));
      if w.outside[j] == 0 {
        SumPositive(w.held[j]);
        var i :| 0 <= i < |w.held[j]| && w.held[j][i] > 0;
        assert !Enabled(w, Release(i, j));
      }
    }
  }

  /** A step never adds support. */
  lemma SupportedBefore(w: World, l: Label, s: set<nat>)
    requires Accounted(w) && Enabled(w, l) && Accounted(Step(w, l)) && Supported(Step(w, l), s)
    ensures Supported(w, s)
  {
    var v := Step(w, l);
    forall j | j in s
      ensures j < |w.alive| && w.alive[j] && (w.outside[j] > 0 || exists i :: i in s && i < |w.alive| && w.held[j][i] > 0)
    {
      if w.outside[j] == 0 {
        var i :| i in s && i < |v.alive| && v.held[j][i] > 0;
        assert w.held[j][i] > 0;
      }
    }
  }

  lemma {:induction false} SupportedInitially(w: World, ls: seq<Label>, s: set<nat>)
    requires Accounted(w) && IsRun(w, ls) && Accounted(After(w, ls)) && Supported(After(w, ls), s)
    ensures Supported(w, s)
    decreases |ls|
  {
    if ls != [] {
      SupportedInitially(Step(w, ls[0]), ls[1..], s);
      SupportedBefore(w, ls[0], s);
    }
  }

  /** The cascade is exact: an actor is alive at the end of it if and only if a supported set contained it. */
  lemma CascadeExact(w: World, ls: seq<Label>, j: nat)
    requires Accounted(w) && IsRun(w, ls) && Accounted(After(w, ls)) && Quiescent(After(w, ls))
    ensures j in Living(After(w, ls)) <==> exists s :: Supported(w, s) && j in s
  {
    var v := After(w, ls);
    if j in Living(v) {
      SurvivorsSupported(v);
      SupportedInitially(w, ls, Living(v));
    }
    if s :| Supported(w, s) && j in s {
      SupportedSurvive(w, ls, s);
    }
  }

  // ----- reachability -----

  /** `path` leads from an outside reference to its last actor through the contexts of live actors. */
  ghost predicate Path(w: World, path: seq<nat>)
    requires Shape(w)
  {
    && path != []
    && (forall k :: 0 <= k < |path| ==> path[k] < |w.alive| && w.alive[path[k]])
    && w.outside[path[0]] > 0
    && forall k :: 0 < k < |path| ==> w.held[path[k]][path[k - 1]] > 0
  }

  ghost predicate Reachable(w: World, j: nat)
    requires Shape(w)
  {
    exists path :: Path(w, path) && path[|path| - 1] == j
  }

  lemma PathSupported(w: World, path: seq<nat>)
    requires Accounted(w) && Path(w, path)
    ensures Supported(w, set k | 0 <= k < |path| :: path[k])
  {
    var s := set k | 0 <= k < |path| :: path[k];
    forall j | j in s
      ensures j < |w.alive| && w.alive[j] && (w.outside[j] > 0 || exists i :: i in s && i < |w.alive| && w.held[j][i] > 0)
    {
      var k :| 0 <= k < |path| && path[k] == j;
      if k > 0 {
        assert path[k - 1] in s && w.held[j][path[k - 1]] > 0;
      }
    }
  }

  /** No actor reachable from outside has its mailbox closed by the cascade. */
  lemma ReachableSurvives(w: World, ls: seq<Label>, j: nat)
    requires Accounted(w) && IsRun(w, ls) && Reachable(w, j)
    ensures j < |After(w, ls).alive| == |After(w, ls).strong| && After(w, ls).alive[j] && After(w, ls).strong[j] > 0
  {
    var path :| Path(w, path) && path[|path| - 1] == j;
    PathSupported(w, path);
    SupportedSurvive(w, ls, set k | 0 <= k < |path| :: path[k]);
  }

  ghost predicate OwnsUnreachable(w: World, i: nat, j: nat)
    requires Shape(w) && i < |w.alive| && j < |w.alive|
  {
    w.alive[i] && w.alive[j] && w.held[j][i] > 0 && !Reachable(w, i) && !Reachable(w, j)
  }

  /** `rank` grows along ownership between unreachable live actors: they own each other without a cycle. */
  ghost predicate Ranked(w: World, rank: seq<nat>)
    requires Shape(w)
  {
    && |rank| == |w.alive|
    && forall i, j :: 0 <= i < |w.alive| && 0 <= j < |w.alive| && OwnsUnreachable(w, i, j) ==> rank[i] < rank[j]
  }

  lemma ReachableExtends(w: World, i: nat, j: nat)
    requires Accounted(w) && Reachable(w, i) && i < |w.alive| && j < |w.alive| && w.alive[j] && w.held[j][i] > 0
    ensures Reachable(w, j)
  {
    var path :| Path(w, path) && path[|path| - 1] == i;
    assert Path(w, path + [j]);
    assert (path + [j])[|path + [j]| - 1] == j;
  }

  /** Without a cycle of unreachable owners, support means reachability. */
  lemma {:induction false} SupportedReachable(w: World, s: set<nat>, rank: seq<nat>, j: nat)
    requires Accounted(w) && Supported(w, s) && Ranked(w, rank) && j in s
    ensures Reachable(w, j)
    decreases rank[j]
  {
    if w.outside[j] > 0 {
      assert Path(w, [j]) && [j][|[j]| - 1] == j;
    } else if !Reachable(w, j) {
      var i :| i in s && i < |w.alive| && w.held[j][i] > 0;
      if !Reachable(w, i) {
        SupportedReachable(w, s, rank, i);
      }
      ReachableExtends(w, i, j);
    }
  }

  /** Over an acyclic graph, exactly the actors reachable from outside survive the cascade. */
  lemma AcyclicCascade(w: World, ls: seq<Label>, rank: seq<nat>, j: nat)
    requires Accounted(w) && IsRun(w, ls) && Accounted(After(w, ls)) && Quiescent(After(w, ls)) && Ranked(w, rank)
    ensures j in Living(After(w, ls)) <==> Reachable(w, j)
  {
    var v := After(w, ls);
    if j in Living(v) {
      SurvivorsSupported(v);
      SupportedInitially(w, ls, Living(v));
      SupportedReachable(w, Living(v), rank, j);
    }
    if Reachable(w, j) {
      ReachableSurvives(w, ls, j);
    }
  }

  // ----- leaks -----

  /** The step of the run at which actor `i` exits. */
  function ExitAt(ls: seq<Label>, i: nat): nat {
    if ls == [] || ls[0] == Exit(i) then 0 else 1 + ExitAt(ls[1..], i)
  }

  /** An owner exits before what it owns. */
  lemma {:induction false} OwnersFirst(w: World, ls: seq<Label>, i: nat, j: nat)
    requires Accounted(w) && IsRun(w, ls) && i < |w.alive| && j < |w.alive|
    requires w.alive[i] && w.alive[j] && w.held[j][i] > 0
    ensures Shape(After(w, ls)) && |After(w, ls).alive| == |w.alive|
    ensures !After(w, ls).alive[j] ==> ExitAt(ls, i) < ExitAt(ls, j)
    decreases |ls|
  {
    HoldsOpen(w, i, j);
    if ls != [] {
      assert ls[0] != Exit(j);
      if ls[0] == Exit(i) {
        SizeKept(w, ls);
      } else {
        OwnersFirst(Step(w, ls[0]), ls[1..], i, j);
      }
    }
  }

  lemma {:induction false} SizeKept(w: World, ls: seq<Label>)
    requires Accounted(w) && IsRun(w, ls)
    ensures Accounted(After(w, ls)) && |After(w, ls).alive| == |w.alive|
    decreases |ls|
  {
    if ls != [] {
      SizeKept(Step(w, ls[0]), ls[1..]);
    }
  }

  /** A finished cascade leaves no unreachable actor behind if and only if their ownership had no cycle. */
  lemma LeakFreeIffAcyclic(w: World, ls: seq<Label>)
    requires Accounted(w) && IsRun(w, ls) && Accounted(After(w, ls)) && Quiescent(After(w, ls))
    ensures (forall j :: j in Living(After(w, ls)) ==> Reachable(w, j)) <==> exists rank :: Ranked(w, rank)
  {
    if rank :| Ranked(w, rank) {
      forall j | j in Living(After(w, ls))
        ensures Reachable(w, j)
      {
        AcyclicCascade(w, ls, rank, j);
      }
    }
    if forall j :: j in Living(After(w, ls)) ==> Reachable(w, j) {
      var rank := seq(|w.alive|, i requires 0 <= i < |w.alive| => ExitAt(ls, i));
      SizeKept(w, ls);
      forall i, j | 0 <= i < |w.alive| && 0 <= j < |w.alive| && OwnsUnreachable(w, i, j)
        ensures rank[i] < rank[j]
      {
        assert j !in Living(After(w, ls));
        OwnersFirst(w, ls, i, j);
      }
      assert Ranked(w, rank);
    }
  }

  /** From every state some run finishes the cascade. */
  lemma {:induction false} CascadeCompletes(w: World) returns (ls: seq<Label>)
    requires Accounted(w)
    ensures IsRun(w, ls) && Accounted(After(w, ls)) && Quiescent(After(w, ls))
    decreases Remaining(w)
  {
    if l :| Enabled(w, l) {
      StepDecreases(w, l);
      var rest := CascadeCompletes(Step(w, l));
      ls := [l] + rest;
      assert ls[1..] == rest;
    } else {
      ls := [];
    }
  }

  /** Two actors whose contexts hold a sender of each other stay alive although nothing else refers to them. */
  lemma CycleLeaks(w: World, j: nat)
    requires w == World([true, true], [0, 0], [3, 3], [[0, 3], [3, 0]]) && j < 2
    ensures Accounted(w) && Quiescent(w) && j in Living(w) && !Reachable(w, j)
  {
    assert [0, 3][..1] == [0] && [3, 0][..1] == [3] && [0][..0] == [] && [3][..0] == [];
  }
}

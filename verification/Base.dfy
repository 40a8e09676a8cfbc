/** Shared datatypes and sequence sums. */
module Base {

  datatype Option<+T> = None | Some(value: T)

  /** The error values of src/error.rs that the modelled operations produce. */
  datatype ActorError = Canceled | ChannelClosed | AlreadyStopped | ActorDropped | ServiceStillRunning

  datatype Result<+T> = Ok(value: T) | Err(error: ActorError)

  function Min(a: int, b: int): int { if a < b then a else b }

  /** The sum of a sequence of naturals. */
  function Sum(s: seq<nat>): nat {
    if s == [] then 0 else Sum(s[..|s| - 1]) + s[|s| - 1]
  }

  lemma SumAppend(s: seq<nat>, x: nat)
    ensures Sum(s + [x]) == Sum(s) + x
  {
    assert (s + [x])[..|s|] == s;
  }

  lemma {:induction false} SumUpdate(s: seq<nat>, i: nat, x: nat)
    requires i < |s|
    ensures Sum(s[i := x]) == Sum(s) - s[i] + x
    ensures Sum(s) >= s[i]
  {
    var n := |s| - 1;
    if i == n {
      assert s[i := x][..n] == s[..n];
    } else {
      SumUpdate(s[..n], i, x);
      assert s[i := x][..n] == s[..n][i := x];
    }
  }

  lemma {:induction false} SumPositive(s: seq<nat>)
    ensures Sum(s) > 0 <==> exists i :: 0 <= i < |s| && s[i] > 0
  {
    if s != [] {
      SumPositive(s[..|s| - 1]);
      assert forall i :: 0 <= i < |s| - 1 ==> s[..|s| - 1][i] == s[i];
    }
  }
}

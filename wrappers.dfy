/** Failure-compatible wrappers shared by the model: an optional value and a
    value-or-error result (the Python code's exceptions become `Failure`). */
module Wrappers {

  datatype Option<+T> = None | Some(value: T) {
    function GetOr(default: T): T {
      match this
      case Some(v) => v
      case None => default
    }
  }

  datatype Result<+T, +E> = Success(value: T) | Failure(error: E)

  /** Applies `f` to every element in order; the first failure is the result. */
  function Collect<S, T, E>(xs: seq<S>, f: S -> Result<T, E>): (r: Result<seq<T>, E>)
    ensures r.Success? ==> |r.value| == |xs|
    decreases |xs|
  {
    if xs == [] then Success([])
    else
      var prev := Collect(xs[..|xs| - 1], f);
      var last := f(xs[|xs| - 1]);
      if prev.Failure? then prev
      else if last.Failure? then Failure(last.error)
      else Success(prev.value + [last.value])
  }

  /** The i-th collected value is what `f` gives for the i-th element. */
  lemma {:induction false} CollectEach<S, T, E>(xs: seq<S>, f: S -> Result<T, E>, i: nat)
    requires Collect(xs, f).Success? && i < |xs|
    ensures f(xs[i]).Success? && Collect(xs, f).value[i] == f(xs[i]).value
    decreases |xs|
  {
    var n := |xs| - 1;
    if i < n {
      assert xs[..n][i] == xs[i];
      CollectEach(xs[..n], f, i);
    }
  }

  /** Once a prefix fails, the whole sequence fails the same way. */
  lemma {:induction false} CollectFailurePersists<S, T, E>(xs: seq<S>, f: S -> Result<T, E>, k: nat)
    requires k <= |xs| && Collect(xs[..k], f).Failure?
    ensures Collect(xs, f) == Collect(xs[..k], f)
    decreases |xs| - k
  {
    if k < |xs| {
      assert xs[..k + 1][..k] == xs[..k];
      CollectFailurePersists(xs, f, k + 1);
    } else {
      assert xs[..k] == xs;
    }
  }
}

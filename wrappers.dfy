// Option and Result: a Java null becomes None, a thrown exception becomes Err.
module Wrappers {

  datatype Option<T> = None | Some(value: T)
  {
    function GetOr(default: T): (r: T)
      ensures Some? ==> r == value
      ensures None? ==> r == default
    {
      match this
      case None => default
      case Some(v) => v
    }
  }

  datatype Result<T, E> = Ok(value: T) | Err(error: E)

  /** Applies a step that may fail to each element in turn; the first failure is the result. */
  function Traverse<X, Y, E>(xs: seq<X>, f: X -> Result<Y, E>): Result<seq<Y>, E>
  {
    if |xs| == 0 then Ok([])
    else match Traverse(xs[..|xs| - 1], f)
      case Err(e) => Err(e)
      case Ok(ys) =>
        match f(xs[|xs| - 1])
        case Err(e) => Err(e)
        case Ok(y) => Ok(ys + [y])
  }

  /** A successful traversal keeps every element's place and fails for no element. */
  lemma {:induction false} TraverseAt<X, Y, E>(xs: seq<X>, f: X -> Result<Y, E>)
    requires Traverse(xs, f).Ok?
    ensures |Traverse(xs, f).value| == |xs|
    ensures forall i :: 0 <= i < |xs| ==> f(xs[i]) == Ok(Traverse(xs, f).value[i])
    decreases |xs|
  {
    if |xs| > 0 {
      var n := |xs| - 1;
      TraverseAt(xs[..n], f);
      assert forall i :: 0 <= i < n ==> xs[..n][i] == xs[i];
    }
  }

  /** A traversal fails exactly when some element fails. */
  lemma {:induction false} TraverseFails<X, Y, E>(xs: seq<X>, f: X -> Result<Y, E>)
    ensures Traverse(xs, f).Err? <==> exists i :: 0 <= i < |xs| && f(xs[i]).Err?
    decreases |xs|
  {
    if |xs| > 0 {
      var n := |xs| - 1;
      TraverseFails(xs[..n], f);
      if exists i :: 0 <= i < |xs| && f(xs[i]).Err? {
        var i :| 0 <= i < |xs| && f(xs[i]).Err?;
        if i < n {
          assert xs[..n][i] == xs[i];
        }
      }
      if exists i :: 0 <= i < n && f(xs[..n][i]).Err? {
        var i :| 0 <= i < n && f(xs[..n][i]).Err?;
        assert xs[..n][i] == xs[i];
      }
    }
  }

  /** Once a prefix fails, the traversal of any extension of it fails the same way. */
  lemma {:induction false} TraversePrefixFailure<X, Y, E>(xs: seq<X>, f: X -> Result<Y, E>, n: nat)
    requires 0 < n <= |xs|
    requires Traverse(xs[..n - 1], f).Ok? && f(xs[n - 1]).Err?
    ensures Traverse(xs, f) == Err(f(xs[n - 1]).error)
    decreases |xs|
  {
    if n < |xs| {
      var m := |xs| - 1;
      assert xs[..m][..n - 1] == xs[..n - 1];
      assert xs[..m][n - 1] == xs[n - 1];
      TraversePrefixFailure(xs[..m], f, n);
    } else {
      assert xs[..|xs|] == xs;
    }
  }
}

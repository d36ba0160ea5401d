/** Optional values, results, and the all-or-first-error traversal used by the decoders. */
module Wrappers {
  datatype Option<+T> = None | Some(value: T) {
    function GetOr(default: T): T {
      match this
      case Some(v) => v
      case None => default
    }
  }

  datatype Result<+T, +E> = Success(value: T) | Failure(error: E)

  /** `f` fails on `xs[k]` and succeeds on every element before it. */
  predicate FirstFailure<A, B, E>(xs: seq<A>, f: A -> Result<B, E>, k: int) {
    0 <= k < |xs| && f(xs[k]).Failure? && forall j :: 0 <= j < k ==> f(xs[j]).Success?
  }

  /**
   * Applies `f` to the elements in order: all the results when every
   * application succeeds, otherwise the error of the first one that fails.
   */
  function MapUntilFailure<A, B, E>(xs: seq<A>, f: A -> Result<B, E>): (r: Result<seq<B>, E>)
    ensures r.Success? <==> forall k :: 0 <= k < |xs| ==> f(xs[k]).Success?
    ensures r.Success? ==> |r.value| == |xs| && forall k :: 0 <= k < |xs| ==> f(xs[k]) == Success(r.value[k])
    ensures r.Failure? ==> exists k :: FirstFailure(xs, f, k) && f(xs[k]) == Failure(r.error)
  {
    if xs == [] then Success([])
    else
      match f(xs[0])
      case Failure(e) =>
        assert FirstFailure(xs, f, 0);
        Failure(e)
      case Success(y) =>
        match MapUntilFailure(xs[1..], f)
        case Failure(e) =>
          FirstFailureAfterSuccess(xs, f, e);
          Failure(e)
        case Success(ys) => Success([y] + ys)
  }

  /** A first failure in the tail, behind a successful head, is the first failure of the whole. */
  lemma FirstFailureAfterSuccess<A, B, E>(xs: seq<A>, f: A -> Result<B, E>, e: E)
    requires xs != [] && f(xs[0]).Success?
    requires exists k :: FirstFailure(xs[1..], f, k) && f(xs[1..][k]) == Failure(e)
    ensures exists k :: FirstFailure(xs, f, k) && f(xs[k]) == Failure(e)
  {
    var k :| FirstFailure(xs[1..], f, k) && f(xs[1..][k]) == Failure(e);
    assert FirstFailure(xs, f, k + 1);
  }
}

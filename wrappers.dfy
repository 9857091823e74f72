/** Option and Result, the two failure-carrying shapes the client uses. */
module Wrappers {

  datatype Option<+T> = None | Some(value: T) {
    /** The wrapped value, or `default` for None. */
    function GetOr(default: T): T {
      match this
      case Some(v) => v
      case None => default
    }
  }

  datatype Result<+T, +E> = Ok(value: T) | Err(error: E)

  /** Each value wrapped as a success, in order. */
  function Oks<T, E>(xs: seq<T>): (r: seq<Result<T, E>>)
    ensures |r| == |xs| && forall i :: 0 <= i < |r| ==> r[i] == Ok(xs[i])
  {
    if xs == [] then [] else [Ok(xs[0])] + Oks(xs[1..])
  }
}

/** Failure-aware result types shared by every module of the model. */
module Wrappers {

  /** A value that may be missing: Python's `None` versus a present value. */
  datatype Option<+T> = None | Some(value: T) {

    /** The carried value, or `fallback` when there is none. */
    function GetOr(fallback: T): (r: T)
      ensures Some? ==> r == value
      ensures None? ==> r == fallback
    {
      match this
      case Some(v) => v
      case None => fallback
    }
  }

  /** The outcome of an operation that can raise: a value or the error it raises. */
  datatype Result<+T, +E> = Success(value: T) | Failure(error: E) {

    /** `f` applied to a success; a failure passes through unchanged. */
    function MapSuccess<U>(f: T -> U): (r: Result<U, E>)
      ensures Success? <==> r.Success?
      ensures Success? ==> r.value == f(value)
      ensures Failure? ==> r.error == error
    {
      match this
      case Success(v) => Success(f(v))
      case Failure(e) => Failure(e)
    }
  }
}

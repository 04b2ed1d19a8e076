/** Option, Result and Outcome: the null references and thrown exceptions of the
    interceptor, written as values. */
module Wrappers {

  /** A possibly-null reference. */
  datatype Option<+T> = None | Some(value: T) {

    /** Applies `f` to the held value, keeping None as None. */
    function Map<U>(f: T -> U): (r: Option<U>)
      ensures r.Some? <==> Some?
    {
      match this
      case None => None
      case Some(v) => Some(f(v))
    }
  }

  /** The value a call returns, or the exception it throws. */
  datatype Result<+R, +E> = Success(value: R) | Failure(error: E) {

    /** Forgets the returned value, keeping only whether the call threw. */
    function ToOutcome(): (r: Outcome<E>)
      ensures r.Pass? <==> Success?
      ensures r.Fail? ==> r.error == error
    {
      match this
      case Success(_) => Pass
      case Failure(e) => Fail(e)
    }
  }

  /** The outcome of a `void` call: it returned normally, or it threw. */
  datatype Outcome<+E> = Pass | Fail(error: E)
}

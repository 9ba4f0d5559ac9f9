/** Failure-carrying values shared by the three components. */
module Wrappers {

  /** A value that may be absent (a JavaScript field that is `undefined`). */
  datatype Option<+T> = None | Some(value: T)

  /** The value of a call that either returns or throws. */
  datatype Result<+T, +E> = Ok(value: T) | Err(error: E) {

    /** The returned value, or `default` when the call threw. */
    function GetOr(default: T): T {
      if Ok? then value else default
    }
  }

  /** The outcome of a call that returns nothing or throws. */
  datatype Outcome<+E> = Pass | Fail(error: E)

  /** Forgets the value of a `Result`, keeping whether (and what) it threw. */
  function Completion<T, E>(r: Result<T, E>): Outcome<E> {
    if r.Ok? then Pass else Fail(r.error)
  }
}

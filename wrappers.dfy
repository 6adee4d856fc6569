/** Optional values and error-carrying results, standing for Go's nil values and
    `(value, error)` / `error` returns. */
module Wrappers {

  /** A value that may be absent (nil in the source, for a struct reference or a slice). */
  datatype Option<+T> = None | Some(value: T)

  /** The `(value, error)` pair of a Go call: exactly one side is meaningful. */
  datatype Result<+T, +E> = Ok(value: T) | Err(error: E) {

    /** The bare `error` a caller sees when it throws the value away. */
    function ToOutcome(): (o: Outcome<E>)
      ensures o.Fail? <==> Err?
      ensures Err? ==> o.error == error
    {
      match this
      case Ok(_) => Pass
      case Err(e) => Fail(e)
    }
  }

  /** A Go `error` return: nil (Pass) or an error value. */
  datatype Outcome<+E> = Pass | Fail(error: E)
}

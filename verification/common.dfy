/** Optional values and success/failure results shared by every module of the model. */
module Common {

  /** A value that may be absent: `undefined` (or a missing property) is `None`. */
  datatype Option<+T> = None | Some(value: T) {

    /** The value if present, otherwise `default` (JavaScript's default-parameter rule). */
    function GetOr(default: T): T {
      if Some? then value else default
    }
  }

  /** The outcome of an async step: it resolves (`Ok`) or it throws (`Err`). */
  datatype Result<+T, +E> = Ok(value: T) | Err(error: E)

  /** `await`-ing a step and feeding its value to the next one; a throw skips the rest. */
  function Then<T, U, E>(r: Result<T, E>, next: T -> Result<U, E>): Result<U, E> {
    match r
    case Ok(v) => next(v)
    case Err(e) => Err(e)
  }
}

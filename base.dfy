/** Small failure-carrying datatypes shared by every module of the model. */
module Base {

  /** A value that may be absent: TypeScript's `T | undefined`. */
  datatype Option<+T> = None | Some(value: T) {
    function GetOr(default: T): T {
      if Some? then value else default
    }
  }

  /** The outcome of a mutation: its return value, or the error it threw. */
  datatype Result<+R, +E> = Success(value: R) | Failure(error: E)
}

/** Option and Result, for Kotlin's nullable values and for the exceptions the screen can throw. */
module Wrappers {

  /** A Kotlin `String?`: `None` is `null`. */
  datatype Option<+T> = None | Some(value: T)

  /** The outcome of a computation that can throw: `Failure` carries what was thrown. */
  datatype Result<+R, +E> = Success(value: R) | Failure(error: E)
}

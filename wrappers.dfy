/** Kotlin's nullable values and thrown construction errors, as values. */
module Wrappers {

  /** A Kotlin `T?`: `None` stands for `null`. */
  datatype Option<+T> = None | Some(value: T)

  /** The outcome of a constructor whose `init` may throw: the value, or the exception's message. */
  datatype Result<+T, +E> = Success(value: T) | Failure(error: E)
}

/** The wrappers used by the model: a nullable value and a value-or-exception. */
module Wrappers {

  /** Kotlin's `T?`: `None` stands for `null`. */
  datatype Option<+T> = None | Some(value: T)

  /** The outcome of a call that may throw: the value, or the exception raised. */
  datatype Result<+T, +E> = Success(value: T) | Failure(error: E)
}

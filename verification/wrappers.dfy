/** Option and Result, the failure-carrying values used throughout the model
    in place of .NET's null references and exceptions. */
module Wrappers {

  /** `None` stands for a null reference, `Some(v)` for a non-null value. */
  datatype Option<+T> = None | Some(value: T)

  /** A call that either returns `value` or throws `error`. */
  datatype Result<+T, +E> = Success(value: T) | Failure(error: E)
}

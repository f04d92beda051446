/** Failure-compatible wrappers: `Option` stands for a nullable reference,
    `Result` for an operation that either returns a value or throws. */
module Wrappers {

  datatype Option<+T> = None | Some(value: T)

  datatype Result<+R, +E> = Success(value: R) | Failure(error: E)
}

/** Failure-carrying results: `Option` stands for a JavaScript value that may be
    `null`, `Result` for an operation that may throw. */
module Wrappers {

  datatype Option<+T> = None | Some(value: T)

  datatype Result<+R, +E> = Success(value: R) | Failure(error: E)
}

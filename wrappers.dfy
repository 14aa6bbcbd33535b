/** Small failure-carrying datatypes: a Java reference that may be null is an
    `Option`, an operation that may throw is a `Result` or an `Outcome`. */
module Wrappers {

  datatype Option<+T> = None | Some(value: T)

  datatype Result<+T, +E> = Success(value: T) | Failure(error: E)

  datatype Outcome<+E> = Pass | Fail(error: E)
}

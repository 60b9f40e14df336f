/** Option and Result values, used where the application tests for a missing
    value or turns a failure into a message instead of throwing. */
module Wrappers {

  datatype Option<+T> = None | Some(value: T)

  datatype Result<+T, +E> = Success(value: T) | Failure(error: E)
}

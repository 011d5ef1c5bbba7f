/** The two wrappers the model uses in place of Go's multiple return values:
    Option for "a value or nothing" and Result for Go's (value, error) pairs. */
module Wrappers {

  datatype Option<+T> = None | Some(value: T)

  datatype Result<+R, +E> = Success(value: R) | Failure(error: E)
}

/** Failure-carrying results: Option for values numpy would leave non-finite,
    Result for operations the Python code aborts with an exception. */
module Wrappers {

  datatype Option<+T> = None | Some(value: T)

  datatype Result<+T, +E> = Success(value: T) | Failure(error: E)
}

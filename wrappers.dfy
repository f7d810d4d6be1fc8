/** Option and Result, the two failure-compatible shapes the model uses for
    Python's `None` entries and raised errors. */
module Wrappers {

  datatype Option<+T> = None | Some(value: T)

  datatype Result<+R, +E> = Success(value: R) | Failure(error: E)
}

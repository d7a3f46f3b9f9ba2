/** Option and Result, used for the optional regex matches and for the
    exceptions that abort a collection pass. */
module Wrappers {

  datatype Option<+T> = None | Some(value: T)

  datatype Result<+T, +E> = Success(value: T) | Failure(error: E)
}

/** Failure-carrying wrappers shared by the modules of this model: `Option` for the
    source's `null`/absent values and `Result` for operations that may throw. */
module Wrappers {

  datatype Option<+T> = None | Some(value: T)

  datatype Result<+T, +E> = Success(value: T) | Failure(error: E)
}

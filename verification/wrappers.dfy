/** Option and Result, the wrappers the rest of the model uses for values
    that may be missing and for calls that may throw. */
module Wrappers {

  datatype Option<+T> = None | Some(value: T)

  datatype Result<+T, +E> = Ok(value: T) | Err(error: E)
}

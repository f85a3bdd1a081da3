/** Option and Result, the two failure-carrying wrappers the model uses. */
module Wrappers {

  /** A value that may be absent, as a Python `dict.get` result or an optional JSON key. */
  datatype Option<+T> = None | Some(value: T)

  /** The value of a computation, or the exception it raises. */
  datatype Result<+T, +E> = Ok(value: T) | Err(error: E)
}

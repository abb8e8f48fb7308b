/** Option and Result, shared by every module of the model. */
module Wrappers {

  /** A value that may be absent: Python's None, or a dict lookup that found nothing. */
  datatype Option<+T> = None | Some(value: T)

  /** The outcome of an operation that can raise: Ok carries the value, Err the exception. */
  datatype Result<+T, +E> = Ok(value: T) | Err(error: E)
}

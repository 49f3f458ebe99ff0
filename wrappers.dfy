/** Option and Result, the two shapes the model uses for Python's `None`
    defaults and for a constructor that either returns or raises. */
module Wrappers {

  /** A value that may be absent: Python's `Optional[T]`, with `None` as the default. */
  datatype Option<+T> = None | Some(value: T)

  /** The outcome of a call that either returns a value or raises an error. */
  datatype Result<+T, +E> = Ok(value: T) | Err(error: E)
}

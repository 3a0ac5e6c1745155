/** Option and Result, used for Python's exceptions (KeyError, IndexError, ValueError). */
module Wrappers {

  datatype Option<+T> = None | Some(value: T)

  datatype Result<+T, +E> = Ok(value: T) | Err(error: E)
}

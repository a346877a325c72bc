/** Option and Result, used for Python's `None` and for raised exceptions. */
module Wrappers {

  datatype Option<+T> = None | Some(value: T)

  /** `Err` stands for an exception the Python code raises and does not catch. */
  datatype Result<+T, +E> = Ok(value: T) | Err(error: E)
}

/** Option and Result: the shapes used for optional fields and for construction-time validation. */
module Wrappers {

  /** An optional value; `None` stands for Python's `None` on typed optional fields. */
  datatype Option<+T> = None | Some(value: T)

  /** The outcome of a validating constructor: a value, or the error it raised. */
  datatype Result<+T, +E> = Ok(value: T) | Err(error: E)
}

/** Optional values and results with an error variant, used for Python's `None`
    and for raised exceptions. */
module Wrappers {

  /** `None` or a present value. */
  datatype Option<+T> = None | Some(value: T)

  /** A returned value or a raised error. */
  datatype Result<+T, +E> = Ok(value: T) | Err(error: E)
}

/** Failure-compatible result types shared by every module of the model. */
module Wrappers {

  /** Python's `None` or a present value. */
  datatype Option<+T> = None | Some(value: T)

  /** A normal return or a raised exception carrying an error description. */
  datatype Result<+R, +E> = Ok(value: R) | Err(error: E)
}

/** Option and Result: the stand-ins for pandas' NaN and for a raised exception. */
module Wrappers {

  /** `None` is a value pandas would hold as NaN. */
  datatype Option<+T> = None | Some(value: T)

  datatype Result<+R, +E> = Success(value: R) | Failure(error: E)
}

/** Option and Result, used for JavaScript's "value or nothing" and "value or thrown error". */
module Wrappers {

  /** `None` stands for JavaScript's `null`, `undefined` or `NaN`, depending on context. */
  datatype Option<+T> = None | Some(value: T)

  /** `Failure(message)` stands for an `Error` thrown with that message. */
  datatype Result<+R, +E> = Success(value: R) | Failure(error: E)
}

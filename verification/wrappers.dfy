/**
 * The two failure-carrying shapes the model needs: a value that may be
 * absent (JavaScript's `null` and `undefined`), and a computation that either
 * yields a value or throws.
 */
module Wrappers {

  /** `None` stands for `null` or an absent field, `Some` for a present one. */
  datatype Option<+T> = None | Some(value: T)

  /** `Ok` carries the result, `Err` the message of the error thrown instead. */
  datatype Result<+R, +E> = Ok(value: R) | Err(error: E)
}

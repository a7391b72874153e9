/** Option and Result, the two failure-carrying values the rest of the model uses. */
module Wrappers {

  /** `None` stands for JavaScript's NaN / null / undefined, depending on context. */
  datatype Option<+T> = None | Some(value: T)

  /** The outcome of a check that may fail with an error value. */
  datatype Result<+T, +E> = Ok(value: T) | Err(error: E)
}

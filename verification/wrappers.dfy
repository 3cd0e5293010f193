/** Failure-carrying datatypes used across the model. */
module Wrappers {

  /** A value that may be absent; stands for Rust's `Option`. */
  datatype Option<+T> = None | Some(value: T)

  /** Either a computed value or the reason the computation failed. */
  datatype Result<+R, +E> = Success(value: R) | Failure(error: E)
}

/** Wrappers used by the rest of the model. */
module Wrappers {

  datatype Option<+T> = None | Some(value: T)

  /** Rust's `Result`: `Failure` carries the reason an operation gave up. */
  datatype Result<+R, +E> = Success(value: R) | Failure(error: E)
}

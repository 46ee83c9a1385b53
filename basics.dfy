/** Failure-carrying wrappers and fixed-width integers shared by every module of the model. */
module Basics {

  /** Rust's `Option`: a value that may be absent. */
  datatype Option<+T> = None | Some(value: T)

  /** Rust's `Result`: either a value or an error. */
  datatype Result<+T, +E> = Success(value: T) | Failure(error: E)

  /** Rust's `u32`. */
  type U32 = n: int | 0 <= n < 0x1_0000_0000
}

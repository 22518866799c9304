/** The Option and Result datatypes shared by the whole model. */
module Wrappers {

  /** An optional value: Rust's `Option`, TypeScript's `T | null`. */
  datatype Option<+T> = None | Some(value: T)

  /** A value or an error message: Rust's `Result<T, String>`. */
  datatype Result<+R, +E> = Success(value: R) | Failure(error: E)

  /** `opt.unwrap_or(default)` */
  function GetOr<T>(opt: Option<T>, default: T): T {
    match opt
    case Some(v) => v
    case None => default
  }
}

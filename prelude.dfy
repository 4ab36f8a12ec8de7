/** Small helpers shared by the battle engine and the fighter kinds. */
module Prelude {

  /** Rust's `Option<T>`. */
  datatype Option<+T> = None | Some(value: T)

  /** Rust's `Result<T, E>`. */
  datatype Result<+T, +E> = Ok(value: T) | Err(error: E)

  /** Rust's `/` on signed integers, which truncates toward zero, for a positive divisor
      (Dafny's own `/` is Euclidean and rounds negative dividends down). */
  function TruncDiv(a: int, b: int): int
    requires b > 0
  {
    if a >= 0 then a / b else -((-a) / b)
  }
}

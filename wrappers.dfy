/** Option and Result, the two Rust standard enums the adapter uses. */
module Wrappers {

  /** Rust's `Option<T>`. */
  datatype Option<+T> = None | Some(value: T) {

    /** `unwrap_or(default)`: the carried value, or `default` for `None`. */
    function GetOr(default: T): T {
      match this
      case Some(v) => v
      case None => default
    }
  }

  /** Rust's `Result<T, E>`. */
  datatype Result<+T, +E> = Ok(value: T) | Err(error: E)
}

/** Rust's `f64`, kept as its IEEE 754 bit pattern: the adapter copies floats, it never computes with them. */
module Floats {

  datatype F64 = F64(bits: bv64)

  /** `0.0` (and `f64::default()`): the all-zero bit pattern. */
  const ZERO: F64 := F64(0)
}

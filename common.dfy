/** Small value types shared by every module of the model: Rust's `Option`,
    a `Result` for the `Result<_, Box<dyn Error>>` returns, and `usize`. */
module Common {

  /** Rust's `Option<T>`. */
  datatype Option<+T> = None | Some(value: T) {
    /** `Option::unwrap_or`. */
    function GetOr(default: T): T {
      match this
      case Some(v) => v
      case None => default
    }
  }

  /** Rust's `Result<T, E>`; the source boxes every error, the model names each one. */
  datatype Result<+T, +E> = Ok(value: T) | Err(error: E)

  /** Rust's `usize` on a 64-bit target. */
  type usize = n: int | 0 <= n < 0x1_0000_0000_0000_0000

  /** The concatenation of a sequence of sequences, in order. */
  function Flatten<T>(ss: seq<seq<T>>): seq<T> {
    if ss == [] then [] else ss[0] + Flatten(ss[1..])
  }
}

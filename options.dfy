/** Rust's Option and a panic-as-value Result, as used by the block model. */
module Options {

  datatype Option<+T> = None | Some(value: T) {

    /** Rust's Option::unwrap_or. */
    function UnwrapOr(default: T): T {
      match this
      case Some(v) => v
      case None => default
    }

    /** Rust's Option::map. */
    function Map<U>(f: T -> U): Option<U> {
      match this
      case Some(v) => Some(f(v))
      case None => None
    }
  }

  /** The outcome of an operation that panics in the source: Err carries the panic message. */
  datatype Result<+T> = Ok(value: T) | Err(message: string)
}

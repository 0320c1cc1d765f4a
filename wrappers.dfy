/** Option and Result, the two failure-carrying shapes the identity layer returns. */
module Wrappers {

  /** An optional value, in the role of Rust's `Option`. */
  datatype Option<+T> = None | Some(value: T)

  /** A value or an error, in the role of Rust's `Result`. */
  datatype Result<+T, +E> = Success(value: T) | Failure(error: E) {

    /** Applies `f` to a success value and passes a failure through unchanged. */
    function MapValue<U>(f: T -> U): Result<U, E> {
      match this
      case Success(v) => Success(f(v))
      case Failure(e) => Failure(e)
    }

    /** Applies `f` to an error and passes a success value through unchanged. */
    function MapError<F>(f: E -> F): Result<T, F> {
      match this
      case Success(v) => Success(v)
      case Failure(e) => Failure(f(e))
    }
  }
}

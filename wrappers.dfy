/** Option and Result, the two wrappers the configuration builder needs:
    Option for a setting that may be unset, and Result, failure-compatible so
    that `:-` stops a build at the first unset setting as Rust's `?` does. */
module Wrappers {

  datatype Option<+T> = None | Some(value: T) {

    /** This value when present, otherwise `other`: the value that Rust's
        `or_else` yields. Whether its closure runs, and so takes a field out
        of the builder, is modelled separately by `BuilderState.Remainder`. */
    function Or(other: Option<T>): Option<T>
    {
      match this
      case Some(_) => this
      case None => other
    }

    /** `self.ok_or_else(|| error)`: a present value succeeds, an absent one fails with `error`. */
    function ToResult<E>(error: E): Result<T, E>
    {
      match this
      case Some(v) => Success(v)
      case None => Failure(error)
    }
  }

  datatype Result<+R, +E> = Success(value: R) | Failure(error: E) {

    predicate IsFailure() {
      Failure?
    }

    function PropagateFailure<U>(): Result<U, E>
      requires Failure?
    {
      Failure(error)
    }

    function Extract(): R
      requires Success?
    {
      value
    }
  }
}

/** Failure-carrying wrappers shared by the whole model. */
module Basics {

  /** A value that may be absent: an empty dict returned by a lookup, a `None`. */
  datatype Option<+T> = None | Some(value: T)

  /** The outcome of a computation that may raise an exception in the source;
      `:-` propagates the first exception, as Python does. */
  datatype Result<+T, +E> = Ok(value: T) | Err(error: E) {
    predicate IsFailure() {
      Err?
    }

    function PropagateFailure<U>(): Result<U, E>
      requires Err?
    {
      Err(error)
    }

    function Extract(): T
      requires Ok?
    {
      value
    }
  }
}

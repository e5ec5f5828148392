/** Option and Result values shared by the broker factory and the ZeroMQ core models. */
module Outcomes {

  /** A value that may be absent (a null shared pointer, a lookup that found nothing). */
  datatype Option<+T> = None | Some(value: T)

  /** The value of an operation that either returns or throws. */
  datatype Result<+R, +E> = Success(value: R) | Failure(error: E)
}

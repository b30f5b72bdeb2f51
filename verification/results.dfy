/** Option and Result values used wherever the Python code returns None or raises. */
module Results {

  /** Python's `None` versus a present value. */
  datatype Option<+T> = None | Some(value: T)

  /** A call that either returns a value or raises with a message. */
  datatype Result<+T, +E> = Success(value: T) | Failure(error: E)
}

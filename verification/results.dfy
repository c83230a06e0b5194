/** Optional values and error-carrying results used by the layer model. */
module Results {

  /** An attribute that may still be None, as Python's None-initialised fields. */
  datatype Option<+T> = None | Some(value: T)

  /** The outcome of a call that can raise: a value or the error it raised. */
  datatype Result<+T, +E> = Success(value: T) | Failure(error: E)
}

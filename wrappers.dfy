/** Option and Result: the model's stand-ins for Python's empty-tuple sentinel
    and for raised exceptions. */
module Wrappers {

  /** `None` plays the role of the empty tuple `()` that the reducers return
      for an empty list. */
  datatype Option<+T> = None | Some(value: T)

  /** A computation that either yields a value or raises an exception. */
  datatype Result<+T, +E> = Success(value: T) | Failure(error: E)
}

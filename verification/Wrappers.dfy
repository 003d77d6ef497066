/** Result and option types shared by every component. */
module Wrappers {

  datatype Option<+T> = None | Some(value: T)

  /** A call that either returns a value or raises one of the service's exceptions. */
  datatype Result<+T, +E> = Success(value: T) | Failure(error: E)
}

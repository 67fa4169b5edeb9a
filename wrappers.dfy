/** Option and Result types shared by the other modules. */
module Wrappers {

  datatype Option<+T> = None | Some(value: T)

  /** The outcome of a call that may fail, such as the cluster's service list. */
  datatype Result<+R, +E> = Success(value: R) | Failure(error: E)
}

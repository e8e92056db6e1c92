/** Result types shared by every module of the model. A service call either
    succeeds with a value or fails with an error kind; a call that fails
    leaves its caller's state as it was. */
module Wrappers {

  datatype Option<+T> = None | Some(value: T)

  datatype Result<+R, +E> = Success(value: R) | Failure(error: E)
}

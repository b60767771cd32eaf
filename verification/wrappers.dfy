/** `Option` and `Result`, shared by the other modules. */
module Wrappers {

  /** A value that may be absent. */
  datatype Option<+T> = None | Some(value: T)

  /** Either a value or the message of the panic that replaced it. */
  datatype Result<+R, +E> = Success(value: R) | Failure(error: E)
}

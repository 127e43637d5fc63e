/** Option and Result values shared by every module of the model. */
module Wrappers {
  datatype Option<T> = None | Some(value: T)

  /** An outcome that is either a value or the error the JavaScript code would throw. */
  datatype Result<T, E> = Ok(value: T) | Err(error: E)
}

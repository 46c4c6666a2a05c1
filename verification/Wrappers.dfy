/** The failure-carrying types shared by the modules of this project. */
module Wrappers {

  datatype Option<+T> = None | Some(value: T)

  /** A result that carries either a value or the reason why there is none. */
  datatype Result<+T, +E> = Ok(value: T) | Err(error: E)
}

/** Option and Result values shared by the other modules. */
module Wrappers {

  /** A value that may be absent: a missing YAML key, a regex that did not match. */
  datatype Option<+T> = None | Some(value: T)

  /** The outcome of a step that may raise an exception the source does not catch. */
  datatype Result<+T, +E> = Ok(value: T) | Err(error: E)
}

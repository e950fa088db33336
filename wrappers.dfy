/** Option and Result, the shapes of JavaScript's null/undefined and of a settled promise. */
module Wrappers {

  datatype Option<+T> = None | Some(value: T)

  /** A settled promise: resolved with a value, or rejected with `{message}`. */
  datatype Result<+T> = Ok(value: T) | Err(message: string)
}

/** Option, Result and Outcome: how the model spells the source's `undefined`, its
    thrown errors and its "finished or threw" control flow. */
module Wrappers {

  datatype Option<+T> = None | Some(value: T)

  datatype Result<+T, +E> = Ok(value: T) | Err(error: E)

  /** A computation that either ran to its end or stopped with an error. */
  datatype Outcome<+E> = Pass | Fail(error: E)
}

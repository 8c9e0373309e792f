/** Option, Result and Outcome: the shapes in which the model returns a value,
    a value or a raised exception, or only "finished" or "raised". */
module Wrappers {

  datatype Option<+T> = None | Some(value: T)

  datatype Result<+R, +E> = Ok(value: R) | Err(error: E)

  /** The outcome of a Python call that returns nothing: it either finishes
      or raises an exception. */
  datatype Outcome<+E> = Done | Raised(error: E)
}

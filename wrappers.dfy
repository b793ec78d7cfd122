/** Failure-carrying results used across the model: `None` and `Err` stand for
    the JavaScript `NaN`/`undefined` outcomes and the Python exceptions. */
module Wrappers {

  datatype Option<+T> = None | Some(value: T)

  datatype Result<+T, +E> = Ok(value: T) | Err(error: E)
}

/** Failure-carrying results shared by every module of the model. */
module Wrappers {

  datatype Option<+T> = None | Some(value: T)

  /** The Python exceptions the modelled code can raise. */
  datatype Error =
    | KeyError        // a dictionary lookup of a missing key
    | IndexError      // an index outside a list
    | ZeroDivisionError
    | ValueError      // raised by Interface.write_text outside the display grid

  datatype Result<+T> = Ok(value: T) | Err(error: Error)

  datatype Outcome = Pass | Fail(error: Error)
}

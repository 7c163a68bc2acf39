/** Result and option types shared by the modules of the model. */
module Wrappers {
  datatype Option<+T> = None | Some(value: T)

  /** `Err` says that the call gave up, and why; each contract says what state it then leaves. */
  datatype Result<+T, +E> = Ok(value: T) | Err(error: E)
}

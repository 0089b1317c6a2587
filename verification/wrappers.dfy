/** Failure-carrying values shared by every module of the model. */
module Wrappers {

  /** An optional value: `None` stands for a JavaScript property that is `undefined`. */
  datatype Option<+T> = None | Some(value: T)

  /** The outcome of a step that may throw: `Err` carries the message of the thrown `Error`. */
  datatype Result<+T> = Ok(value: T) | Err(message: string)

  /** The outcome of a step that returns nothing but may throw. */
  datatype Outcome = Pass | Fail(message: string)
}

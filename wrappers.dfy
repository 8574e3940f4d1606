/** Absence and failure values shared by the whole model. */
module Wrappers {

  /** A JavaScript value that may be `null`/`undefined` (None) or present (Some). */
  datatype Option<+T> = None | Some(value: T)

  /** The outcome of an external step that either completes or throws an Error with a message. */
  datatype Outcome = Pass | Fail(message: string)
}

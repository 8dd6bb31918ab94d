/** Failure-carrying values for the outcomes of calls into collaborators. */
module Wrappers {

  datatype Option<+T> = None | Some(value: T)

  /** A call that returns a value, or fails with the text of its Go error. */
  datatype Result<+T> = Ok(value: T) | Err(error: string)

  /** A call that only returns an error (Go's `error`, nil meaning success). */
  datatype Outcome = Pass | Fail(error: string)
}

/** Failure-carrying values shared by the model: the use cases signal every
    failure by throwing a bare `Error` whose only content is its message. */
module Outcomes {

  datatype Option<+T> = None | Some(value: T)

  /** A value built, or the message of the `Error` that stopped building it. */
  datatype Result<+T> = Ok(value: T) | Err(message: string)

  /** How a call to `execute` settles: its promise resolves, or rejects with
      an `Error` carrying `message`. */
  datatype Outcome = Success | Failure(message: string)
}

/** Failure-carrying values used for collaborator results that the facade receives. */
module Base {

  datatype Option<+T> = None | Some(value: T)

  /** A collaborator's answer: a value, or the text of the exception it raised. */
  datatype Result<+T> = Ok(value: T) | Err(message: string)
}

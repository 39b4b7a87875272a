/** Option and Result values shared by the other modules. */
module Base {

  /** An optional value: a missing file, or a `None` returned by a Python function. */
  datatype Option<+T> = None | Some(value: T)

  /** The outcome of a call into a collaborator: its value, or the exception it raised. */
  datatype Result<+T> = Ok(value: T) | Fail(reason: string)
}

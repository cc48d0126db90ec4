/** Success-or-failure values. Every failure of the provider and of the
    handlers is a single error kind, Python's RuntimeError, carrying a
    human-readable message: the model keeps only that message. */
module Results {

  datatype Option<+T> = None | Some(value: T)

  datatype Result<+T> = Ok(value: T) | Err(message: string)
}

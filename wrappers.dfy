/** Option and Result values shared by the modules of the model. */
module Wrappers {

  datatype Option<+T> = None | Some(value: T)

  /** The outcome of an operation that can raise Python's KeyError: the value,
      or the name of the missing dictionary key. */
  datatype Result<+T> = Ok(value: T) | KeyError(key: string)
}

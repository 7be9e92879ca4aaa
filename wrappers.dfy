/** Failure-compatible wrappers shared by the whole model: Python's `Optional[...]`
    (a value or `None`) and a raised exception carrying its message. */
module Wrappers {

  datatype Option<+T> = None | Some(value: T)

  /** The outcome of a call that may raise: its value, or the text of the exception
      (what `str(e)` would give). */
  datatype Result<+T> = Success(value: T) | Failure(error: string)
}

/** Optional values and the success-or-failure outcome of a step that may raise. */
module Outcomes {

  /** A value that may be absent: a JSON field that `dict.get` did not find is None. */
  datatype Option<+T> = None | Some(value: T)

  /** The outcome of a call that either returns a value or raises an exception;
      `msg` is the exception's text, `str(e)` in the program. */
  datatype Outcome<+T> = Ok(value: T) | Err(msg: string)
}

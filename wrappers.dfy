/** Failure-carrying values shared by every module of the model. */
module Wrappers {

  /** A value that may be absent (Python's `None`). */
  datatype Option<T> = None | Some(value: T) {
    function GetOr(default: T): T {
      match this
      case Some(v) => v
      case None => default
    }
  }

  /** The outcome of a call that may raise: `Err` carries `str(e)`. */
  datatype Result<T> = Ok(value: T) | Err(msg: string)

  /**
   * The exception kinds that can escape a stage body uncaught (raised outside the
   * stage's own `try`); such an exception ends the whole run.
   */
  datatype Uncaught = KeyError | TypeError | ValueError | IndexError | AttributeError

  /** The outcome of Python code outside any `try`: its value, or the exception that escapes. */
  datatype Outcome<T> = Done(value: T) | Raises(exc: Uncaught)

  function Min(a: int, b: int): int {
    if a <= b then a else b
  }

  function Max(a: int, b: int): int {
    if a >= b then a else b
  }
}

/** Value wrappers shared by the client and server models: absent references,
    completions that may raise, and results that may raise. */
module Wrappers {

  /** A present value, or the absence of one (a C# `null` reference). */
  datatype Option<+T> = None | Some(value: T)

  /** How a call completed: normally, or by raising `error`. */
  datatype Outcome<+E> = Pass | Fail(error: E)

  /** A call that yields a value or raises `error`. */
  datatype Result<+R, +E> = Success(value: R) | Failure(error: E)
}

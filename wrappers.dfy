/** Option and Result, used for values a JavaScript property access may not
    have (`undefined`) and for calls to the payment provider that may throw. */
module Wrappers {

  datatype Option<+T> = None | Some(value: T)

  datatype Result<+T, +E> = Success(value: T) | Failure(error: E)
}

/** Option and Result values: a Ruby `nil` or JavaScript `undefined`, and a call that either returns or raises. */
module Wrappers {

  datatype Option<+T> = None | Some(value: T)

  datatype Result<+T, +E> = Success(value: T) | Failure(error: E)
}

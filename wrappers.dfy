/** Option and Result, used for the optional props of the components and for
    the error a context consumer raises outside its provider. */
module Wrappers {

  datatype Option<+T> = None | Some(value: T)

  datatype Result<+R, +E> = Success(value: R) | Failure(error: E)
}

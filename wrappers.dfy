/** Option and Result, used for the absent user / empty storage slot and for
    the error raised by `useAuth` outside its provider. */
module Wrappers {

  datatype Option<+T> = None | Some(value: T)

  datatype Result<+R, +E> = Success(value: R) | Failure(error: E)
}

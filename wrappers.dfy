/** Option and Result, the two failure-carrying shapes the model returns where Go returns `nil` or an `error`. */
module Wrappers {

  datatype Option<+T> = None | Some(value: T)

  datatype Result<+R, +E> = Success(value: R) | Failure(error: E)
}

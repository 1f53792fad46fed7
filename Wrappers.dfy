/** Option and Result, the failure-compatible wrappers used for absent values
    and for the exceptions the modelled code catches. */
module Wrappers {

  datatype Option<+T> = None | Some(value: T)

  datatype Result<+T> = Success(value: T) | Failure(message: string)
}

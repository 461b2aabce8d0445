/** Option and Result, the two outcome shapes the pipeline needs: an absent
    value (a swallowed parse failure, a NaN category) and a fatal error that
    is propagated to the caller (a classifier failure). */
module Wrappers {

  datatype Option<+T> = None | Some(value: T)

  datatype Result<+R, +E> = Success(value: R) | Failure(error: E)
}

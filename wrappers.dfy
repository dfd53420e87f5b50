/** Option and Result, the two shapes every error path of the bridge is modelled with. */
module Wrappers {

  datatype Option<+T> = None | Some(value: T)

  /** A thrown JavaScript error becomes `Failure`; a returned value `Success`. */
  datatype Result<+T, +E> = Success(value: T) | Failure(error: E)
}

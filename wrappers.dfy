/** Optional values and results for the operations of the assistant. */
module Wrappers {

  datatype Option<+T> = None | Some(value: T)

  /** A Python exception that ends the current call. */
  datatype PyError =
    | IndexError       // indexing an empty list (`messages[-1]`)
    | AttributeError   // calling `.get` on a value that is not a dict

  datatype Result<+T> = Success(value: T) | Failure(error: PyError)
}

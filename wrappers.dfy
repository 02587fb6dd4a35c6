/** Optional values and results with an error: the shapes of "nothing issued"
    and "this call throws" in the model. */
module Wrappers {

  datatype Option<+T> = None | Some(value: T)

  datatype Result<+R, +E> = Success(value: R) | Failure(error: E)
}

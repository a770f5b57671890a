/** Optional values and results that carry an error: the two shapes in which
    the front ends report "nothing here" and "this call raised". */
module Outcomes {

  datatype Option<+T> = None | Some(value: T)

  datatype Result<+T, +E> = Success(value: T) | Failure(error: E)
}

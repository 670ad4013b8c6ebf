/** Optional values and results with an error, used wherever the simulator
    raises an exception or produces nothing. */
module Wrappers {

  datatype Option<+T> = None | Some(value: T)

  datatype Result<+T, +E> = Ok(value: T) | Err(error: E)
}

/** Optional values, results and outcomes, used wherever the Python code
    returns `None`, or raises where the model returns a failure value. */
module Wrappers {

  datatype Option<+T> = None | Some(value: T)

  datatype Result<+T, +E> = Success(value: T) | Failure(error: E)

  /** Pass: the call returned normally; Fail(e): it raised `e`. */
  datatype Outcome<+E> = Pass | Fail(error: E)
}

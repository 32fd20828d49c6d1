/** Optional values and results shared by every module of the dashboard model. */
module Wrappers {

  /** A value that may be absent (`null` / `undefined` in the pages). */
  datatype Option<+T> = None | Some(value: T)

  /** The outcome of a server action or a library call: a value, or the error it reported or threw. */
  datatype Result<+T, +E> = Success(value: T) | Failure(error: E)
}

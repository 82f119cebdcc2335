/** Optional values and results shared by the other modules.
    `None` stands for JavaScript's `undefined`/`null` and SQL's NULL. */
module Wrappers {

  datatype Option<+T> = None | Some(value: T)

  datatype Result<+R, +E> = Success(value: R) | Failure(error: E)
}

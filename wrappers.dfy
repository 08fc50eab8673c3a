/** The absent-or-present and success-or-failure values the catalogue uses
    where the JavaScript code uses `null` or throws. */
module Wrappers {

  /** `None` stands for JavaScript's `null` result of a failed lookup. */
  datatype Option<+T> = None | Some(value: T)

  /** `Failure` stands for an exception thrown while computing a value. */
  datatype Result<+R, +E> = Success(value: R) | Failure(error: E)
}

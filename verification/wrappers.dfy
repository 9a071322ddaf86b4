/** Failure-carrying result types used by the form handlers and the search model. */
module Wrappers {

  /** An optional value: `None` stands for JavaScript's `undefined`, `null` or `NaN`. */
  datatype Option<+T> = None | Some(value: T)

  /** Either a value or the reason it could not be produced (a blocked form submission). */
  datatype Result<+R, +E> = Success(value: R) | Failure(error: E)
}

/** Optional values and results, standing for Java's nullable references and thrown exceptions. */
module Wrappers {

  /** `None` is Java's `null`. */
  datatype Option<+T> = None | Some(value: T)

  /** `Failure(e)` is an exception `e` thrown where a value was expected. */
  datatype Result<+R, +E> = Success(value: R) | Failure(error: E)

  /** `Fail(e)`: a `void` call that threw `e`; `Pass`: it returned normally. */
  datatype Outcome<+E> = Pass | Fail(error: E)
}

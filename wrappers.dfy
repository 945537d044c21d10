/** Optional values and results, shared by the whole model. */
module Wrappers {

  /** A present or missing value. For indicator values, `None` stands for
      the NaN that pandas places where a value is undefined. */
  datatype Option<+T> = None | Some(value: T)

  /** The outcome of an operation whose source returns either a value or an
      error message. */
  datatype Result<+T, +E> = Success(value: T) | Failure(error: E)

  /** Why an indicator or a recommendation could not be computed. */
  datatype Error = NoData | InvalidParameter
}

/** Optional values and failure-carrying results, used for Java's nullable
    references and for the paths that end in `Assert.fail` or a thrown exception. */
module Outcomes {

  /** A Java reference that may be null. */
  datatype Option<+T> = None | Some(value: T)

  /** Either a computed value or the error that aborted the computation. */
  datatype Result<+T, +E> = Ok(value: T) | Fail(error: E)
}

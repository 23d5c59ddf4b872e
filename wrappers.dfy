/** Optional values and results with an error message, shared by every module. */
module Wrappers {

  /** `None` stands for JavaScript's `null`/`undefined` or Python's `None`. */
  datatype Option<+T> = None | Some(value: T)

  /** The outcome of an operation that may raise or reject: `Fail` carries the error text. */
  datatype Result<+T> = Ok(value: T) | Fail(error: string)
}

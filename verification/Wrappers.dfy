/** Option and Result, the two result shapes shared by every model in this project. */
module Wrappers {

  datatype Option<+T> = None | Some(value: T)

  /** The source's exceptions become `Failure`, its normal returns `Success`. */
  datatype Result<+T, +E> = Success(value: T) | Failure(error: E)
}

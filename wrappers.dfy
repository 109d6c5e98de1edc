/** Failure-carrying datatypes shared by both stages. */
module Wrappers {

  datatype Option<+T> = None | Some(value: T)

  datatype Result<+T, +E> = Success(value: T) | Failure(error: E)

  /** How a call of a Python function ends: it returns an exit code, or an
      exception propagates out of it (Python then ends the process itself). */
  datatype Completion = Returns(code: int) | Raises
}

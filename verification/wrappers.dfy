/** Wrappers shared by the model: Python's `None`-or-value and
    raise-or-return are both expressed through these two datatypes. */
module Wrappers {

  /** A value that may be absent (`Optional[...]` in the server). */
  datatype Option<+T> = None | Some(value: T)

  /** Either a returned value or a raised error. */
  datatype Result<+R, +E> = Success(value: R) | Failure(error: E)
}

/** Option and Result datatypes shared by the trainer model. */
module Wrappers {

  /** An optional value; `None` stands for "absent". */
  datatype Option<+T> = None | Some(value: T)

  /** Either a successful value or an error. */
  datatype Result<+R, +E> = Success(value: R) | Failure(error: E)
}

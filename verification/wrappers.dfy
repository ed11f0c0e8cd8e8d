/** Result and option types shared by the whole model: `Option` stands for an optional
    field, `Result` for a function that returns a value or raises. */
module Wrappers {
  datatype Option<+T> = None | Some(value: T)

  datatype Result<+R, +E> = Success(value: R) | Failure(error: E)
}

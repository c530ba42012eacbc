/**
 * `Option` stands for a value that may be missing, such as an event's title;
 * `Result` for a computation that may fail, such as GetMonthRange, whose
 * `Failure(ValueError)` stands for the exception `datetime` raises.
 */
module Wrappers {

  datatype Option<+T> = None | Some(value: T)

  datatype Result<+R, +E> = Success(value: R) | Failure(error: E)
}

/** Two small wrappers used across the model: an optional value (Ruby's
    `nil` or a present object) and a value-or-error result (a Ruby method
    that either returns or raises). */
module Wrappers {

  datatype Option<+T> = None | Some(value: T)

  datatype Result<+R, +E> = Success(value: R) | Failure(error: E)
}

/** Option and Result, the two failure-carrying datatypes the rest of the model uses.
    `None` stands for JavaScript's `null`/`undefined`; `Failure` carries the message
    of a thrown `Error`. */
module Wrappers {

  datatype Option<+T> = None | Some(value: T)

  datatype Result<+R, +E> = Success(value: R) | Failure(error: E)
}

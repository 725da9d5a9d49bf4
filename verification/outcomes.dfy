/** Success-or-error values used across the model: Python exceptions
    raised by the trainer become `Failure` values carrying an `Error`. */
module Outcomes {

  datatype Option<T> = None | Some(value: T)

  /** The exceptions the trainer's own code can raise. */
  datatype Error =
    | NotImplemented(optimizer: string)  // unsupported optimizer name
    | IndexError                         // list index out of range
    | AssertionError                     // a failed `assert` on the configuration
    | ShapeError                         // tensors of different batch sizes concatenated

  datatype Result<T> = Success(value: T) | Failure(error: Error)
}

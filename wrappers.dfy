/** Small failure-carrying datatypes shared by the model. */
module Wrappers {

  datatype Option<+T> = None | Some(value: T)

  /** The outcome of an operation that awaits an external process:
      either it completed with a value, or the process reported failure. */
  datatype Result<+T> = Ok(value: T) | Failed
}

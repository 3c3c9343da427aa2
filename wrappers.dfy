/** Small failure-carrying datatypes shared by the model. */
module Wrappers {

  /** A value that may be absent; stands for a Java reference that may be null. */
  datatype Option<T> = None | Some(value: T)

  /** The result of a call that either returns a value or throws an exception carrying a message. */
  datatype Outcome<T> = Ok(value: T) | Thrown(message: string)
}

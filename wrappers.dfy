/** Failure-compatible wrappers shared by every module of the model. */
module Wrappers {

  /** Python's `Optional[T]`: `None` or a value. */
  datatype Option<T> = None | Some(value: T)

  /** The Python exceptions that the modelled code lets escape. */
  datatype Error =
    | AttributeError     // reading an attribute that was never assigned
    | IndexError         // indexing past the end of a list or a frame
    | KeyError           // reading a frame column the fetched data does not have
    | ZeroDivisionError  // Python float or int division by zero

  /** A value, or the exception raised instead of returning it. */
  datatype Result<T> = Ok(value: T) | Err(error: Error)
}

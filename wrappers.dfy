/** Option and Result, and the Python exceptions the modelled scripts raise. */
module Wrappers {

  datatype Option<+T> = None | Some(value: T)

  /** The exception a Python call ends with. */
  datatype Error =
    | ValueError(message: string)
    | RuntimeError(message: string)
    | FileNotFoundError(message: string)
    | KeyError(key: string)
    | AttributeError   // `re.match(...)` returned None and `.group` was called on it
    | TypeError        // a None was joined, iterated or mapped over
    | IndexError       // an element of an empty list was taken

  /** A value, or the exception raised instead of returning it. */
  datatype Result<+T> = Ok(value: T) | Err(error: Error)
}

/** The optional and fallible results the client's operations produce, and the
    Python exceptions it raises or lets through. */
module Outcomes {

  datatype Option<+T> = None | Some(value: T)

  /** An exception of the client, named after the Python exception it is. */
  datatype Error =
    | NoSuchSocket(path: string)  // CmusConnectionError: connect failed with errno 2
    | BrokenPipe                  // CmusConnectionError: a round trip failed with errno 32
    | NotConnected                // CmusConnectionError: a round trip failed with errno 107
    | OsError(errno: int)         // any other socket.error, re-raised unchanged
    | KeyError(key: string)       // a missing key in a status dictionary or the environment
    | TypeError                   // arithmetic on a string operand
    | AttributeError              // a missing attribute (os.expanduser, str methods on a non-string)
    | FloatOperand                // a float reached integer formatting; floats are not computed here

  /** What a Python call returns, or the exception it raises. */
  datatype Result<+T> = Ok(value: T) | Err(error: Error)
}

/** Failure-carrying result types shared by the whole model.  Each `Error`
    stands for one exception the Python package raises (or lets escape). */
module Outcomes {

  datatype Option<+T> = None | Some(value: T)

  datatype Error =
    | UnknownParameter   // AssertionError: name or code not in the parameter tables
    | NotNameOrCode      // ValueError: identifier is neither a str nor an int
    | InvalidTrainId     // AssertionError: custom pulse train id not in [0, 1]
    | LengthMismatch     // AssertionError: pulse times and voltages differ in length
    | NoReply            // the device sent no byte where the session reads one
    | ConnectionFailed   // ConnectionError raised by connect
    | UploadRejected     // ValueError raised by upload_all on a refused write
    | IndexOutOfRange    // IndexError on a per-parameter list
    | NoSuchParameter    // AttributeError, or TypeError when the named attribute is no list
    | NoOpcode           // TypeError: the firmware opcode is None and cannot be encoded

  /** The value of an operation that may raise. */
  datatype Result<+T> = Ok(value: T) | Err(error: Error)

  /** The value of an operation that returns nothing but may raise. */
  datatype Outcome = Pass | Fail(error: Error)
}

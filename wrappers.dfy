/** Option and Result values used in place of Java's null and thrown exceptions. */
module Wrappers {

  datatype Option<+T> = None | Some(value: T)

  /** How string concatenation prints a possibly null string: null prints as "null". */
  function Printed(s: Option<string>): string {
    if s.None? then "null" else s.value
  }

  /** A value, or the exception the source throws instead of returning one. */
  datatype Result<+T> = Ok(value: T) | Err(error: Exception)

  /** The Java exception classes the modelled code throws, with their messages. */
  datatype Exception =
    | IllegalArgument(message: string)
    | IllegalState(message: string)
    | NullPointer
    | IndexOutOfBounds(index: int)
    | UnsupportedOperation(message: string)
    | IO(message: string)
    | SocketTimeout
    | EndOfStream
    | Cubes(message: string)
}

/** The pieces of Python's runtime that every part of the model shares:
    bytes, optional values, and the exceptions the session can raise. */
module PyBase {

  /** One byte of a payload or datagram. */
  newtype byte = x: int | 0 <= x < 256

  datatype Option<+T> = None | Some(value: T)

  /** The Python exceptions the modelled code raises or lets escape. */
  datatype PyException =
    | NotReady             // shoots.printer.NotReady: no device id to address a command to
    | KeyError(key: string)
    | TypeError
    | AttributeError
    | ValueError
    | UnicodeDecodeError

  /** A Python call either returns a value or raises. */
  datatype Result<+T> = Ok(value: T) | Raised(error: PyException)
}

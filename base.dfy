/** Java-level vocabulary shared by every part of the HTTP client model:
    optional values (Java's null), results carrying a thrown exception,
    the exception kinds the client raises or lets through, the HTTP method
    enumeration and Java's signed byte. */
module Base {

  /** A possibly-null Java reference. */
  datatype Option<+T> = None | Some(value: T)

  /** The outcome of a Java call that either returns a value or throws. */
  datatype Result<+T> = Ok(value: T) | Err(error: Exception)

  /** The outcome of a `void` Java call: it returns, or it throws. */
  datatype Outcome = Pass | Fail(error: Exception)

  /** The exceptions that escape the modelled code. Causes attached to an
      `HttpCallException` are not modelled, only its message. */
  datatype Exception =
    | HttpCallException(message: string)
    | IllegalArgumentException(message: string)
    | NullPointerException
    | IOException

  /** The request methods the client supports. */
  datatype HttpMethod = GET | POST | PUT | DELETE {
    /** Java's `Enum.name()`: the constant's identifier. */
    function Name(): string {
      match this
      case GET => "GET"
      case POST => "POST"
      case PUT => "PUT"
      case DELETE => "DELETE"
    }
  }

  /** Java's signed 8-bit `byte`. */
  newtype byte = b: int | -128 <= b < 128
}

/** Values shared by every part of the model: optional values, Java exceptions
    and results that either carry a value or the exception that was thrown. */
module Common {

  /** A Java reference that may be null. */
  datatype Option<+T> = None | Some(value: T)

  /** A Java exception, by the name of its class and its message. */
  datatype Exc = Exc(className: string, message: string)

  /** A computation that returns a value or throws. */
  datatype Result<+T> = Ok(value: T) | Err(exc: Exc)

  const IllegalArgument := "java.lang.IllegalArgumentException"

  /** `Throwable.toString()`: the class name, a colon and the message. A
      `RuntimeException` built around `e` reports this as its own message. */
  function Describe(e: Exc): string
  {
    e.className + ": " + e.message
  }
}

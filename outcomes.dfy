/** Success and failure values standing in for the exceptions the hook throws. */
module Outcomes {

  datatype Option<T> = None | Some(value: T)

  /**
   * The exceptions the hook raises: `\InvalidArgumentException`,
   * `\RuntimeException`, and the `TypeError` PHP itself raises when a
   * non-array value reaches a parameter declared `array`.
   */
  datatype Error =
    | InvalidArgument(message: string)
    | Runtime(message: string)
    | ArrayExpected

  /** A computation that returns a value or throws. */
  datatype Result<T> = Success(value: T) | Failure(error: Error)

  /** A `void` computation that returns normally or throws. */
  datatype Outcome = Pass | Fail(error: Error)
}

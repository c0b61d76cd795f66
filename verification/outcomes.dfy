/** Carriers for optional values and for the exceptions the modelled
    Kotlin code throws. An operation that can throw returns a `Result`;
    one whose side effects happen before the throw returns its partial
    effects together with an `Option<Exception>` (see MoveSimulator.Step). */
module Outcomes {

  datatype Option<+T> = None | Some(value: T)

  /** The JVM exceptions raised by the modelled code, by kind and message. */
  datatype Exception =
    | IllegalArgument(message: string)
    | SecurityError(message: string)
    | UninitializedProperty(property: string)
    | IndexOutOfBounds(index: int, size: int)

  datatype Result<+T> = Ok(value: T) | Err(error: Exception)

  /** Success or failure of an operation that returns nothing. */
  datatype Outcome = Pass | Fail(error: Exception)
}

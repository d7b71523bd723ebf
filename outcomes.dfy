/** Optional values, results and the exceptions the modelled Java code throws. */
module Outcomes {

  /** A possibly-null reference. */
  datatype Option<+T> = None | Some(value: T)

  /** Which commons-lang `Validate` check rejected an argument. */
  datatype Check =
    | NotNull                       // Validate.notNull
    | NoNullElements(index: nat)    // Validate.noNullElements, first null position
    | IsTrue                        // Validate.isTrue

  /** The exceptions raised by the modelled code. */
  datatype Error =
    | ValidationFailed(check: Check)      // IllegalArgumentException from Validate
    | IllegalArgument(message: string)    // IllegalArgumentException thrown explicitly
    | NullPointer                         // NullPointerException (dereference or unboxing of null)

  /** A value, or the exception that was thrown instead. */
  datatype Result<+T> = Ok(value: T) | Err(error: Error)

  /** The completion of a `void` Java method: normal, or by an exception. */
  datatype Outcome = Pass | Fail(error: Error)
}

/** The exceptions the domain model and the workflow raise. */
module Errors {

  datatype Error =
    /** System.ArgumentException: a field fails validation; paramName is
        the C# parameter name passed through nameof. */
    | ArgumentError(message: string, paramName: string)
    /** System.ArgumentNullException: a required reference was null. */
    | ArgumentNullError(paramName: string)
    /** System.InvalidOperationException: an operation's precondition on
        the object's state does not hold. */
    | InvalidOperation(message: string)
    /** Any failure raised by the ERP port; carried through unchanged. */
    | IntegrationFailure(message: string)

  /** True for the kinds the HTTP layer catches as ArgumentException
      (ArgumentNullException derives from it). */
  predicate IsArgumentKind(e: Error) {
    e.ArgumentError? || e.ArgumentNullError?
  }
}

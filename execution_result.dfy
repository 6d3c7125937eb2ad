/** The abstract base of every execution result (ExecutionResult.cs), merged with the parts each
    shape adds (ExecutedCode, and ReturnValue for the function shapes). */
module ExecutionResults {
  import opened Common

  /** One invocation's record. `E` is the executor that ran the code; `C` is the delegate type,
      which tells the four shapes apart; `T` is the return type, `()` for the action shapes.
      `ExecutedBy` and `ExecutedCode` are get-only, so they are constants; `WasSuccessful`,
      `Exception` and `ReturnValue` have public setters, so they are fields anyone may assign. */
  class ExecutionResult<E, C, T> {
    const executedBy: E
    const executedCode: C
    var wasSuccessful: bool
    var exception: Option<Error>
    var returnValue: T

    /** `defaultValue` is `default(T)`: `Null` for the function shapes, `()` for the action shapes. */
    constructor (executedBy: E, executedCode: C, defaultValue: T)
      ensures this.executedBy == executedBy && this.executedCode == executedCode
      ensures !wasSuccessful && exception == None
      ensures returnValue == defaultValue
    {
      this.executedBy := executedBy;
      this.executedCode := executedCode;
      wasSuccessful := false;
      exception := None;
      returnValue := defaultValue;
    }

    /** The intended reading of a result: successful exactly when no exception was captured.
        The factories establish it; it is not an invariant of the class, since the fields are
        public and a freshly constructed result (unsuccessful, no exception) does not satisfy it. */
    predicate SucceededIffNoException()
      reads this
    {
      wasSuccessful <==> exception == None
    }
  }
}

/** ActionExecutionResult.cs: the result of running a synchronous `Action`. */
module ActionExecutionResults {
  import opened Common
  import opened Delegates
  import opened ExecutionResults

  type ActionExecutionResult<E> = ExecutionResult<E, Code<()>, ()>

  /** The result of an action that completed normally. */
  method SuccessResult<E>(executedBy: E, executedCode: Code<()>) returns (r: ActionExecutionResult<E>)
    ensures fresh(r)
    ensures r.executedBy == executedBy && r.executedCode == executedCode
    ensures r.wasSuccessful && r.exception == None
    ensures r.SucceededIffNoException()
  {
    r := new ExecutionResult(executedBy, executedCode, ());
    r.wasSuccessful := true;
  }

  /** The result of an action that threw `exception`. */
  method FailedResult<E>(executedBy: E, executedCode: Code<()>, exception: Option<Error>)
    returns (r: ActionExecutionResult<E>)
    ensures fresh(r)
    ensures r.executedBy == executedBy && r.executedCode == executedCode
    ensures !r.wasSuccessful && r.exception == exception
    ensures exception.Some? ==> r.SucceededIffNoException()
  {
    r := new ExecutionResult(executedBy, executedCode, ());
    r.exception := exception;
  }
}

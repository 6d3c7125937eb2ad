/** AsyncActionExecutionResult.cs: the result of running and awaiting a `Func<Task>`. */
module AsyncActionExecutionResults {
  import opened Common
  import opened Delegates
  import opened ExecutionResults

  type AsyncActionExecutionResult<E> = ExecutionResult<E, AsyncCode<()>, ()>

  /** The result of an asynchronous action whose task completed normally. */
  method SuccessResult<E>(executedBy: E, executedCode: AsyncCode<()>) returns (r: AsyncActionExecutionResult<E>)
    ensures fresh(r)
    ensures r.executedBy == executedBy && r.executedCode == executedCode
    ensures r.wasSuccessful && r.exception == None
    ensures r.SucceededIffNoException()
  {
    r := new ExecutionResult(executedBy, executedCode, ());
    r.wasSuccessful := true;
  }

  /** The result of an asynchronous action that threw `exception`. */
  method FailedResult<E>(executedBy: E, executedCode: AsyncCode<()>, exception: Option<Error>)
    returns (r: AsyncActionExecutionResult<E>)
    ensures fresh(r)
    ensures r.executedBy == executedBy && r.executedCode == executedCode
    ensures !r.wasSuccessful && r.exception == exception
    ensures exception.Some? ==> r.SucceededIffNoException()
  {
    r := new ExecutionResult(executedBy, executedCode, ());
    r.exception := exception;
  }
}

/** AsyncFuncExecutionResult.cs: the result of running and awaiting a `Func<Task<T>>`. */
module AsyncFuncExecutionResults {
  import opened Common
  import opened Delegates
  import opened ExecutionResults

  type AsyncFuncExecutionResult<E> = ExecutionResult<E, AsyncCode<Value>, Value>

  /** The three-argument `FailedResult`: an asynchronous failure whose return value is `default(T)`. */
  method FailedResult<E>(executedBy: E, executedCode: AsyncCode<Value>, exception: Option<Error>)
    returns (r: AsyncFuncExecutionResult<E>)
    ensures fresh(r)
    ensures r.executedBy == executedBy && r.executedCode == executedCode
    ensures !r.wasSuccessful && r.exception == exception && r.returnValue == Null
    ensures exception.Some? ==> r.SucceededIffNoException()
  {
    r := FailedResultWithValue(executedBy, executedCode, exception, Null);
  }

  /** The four-argument `FailedResult`: a failure that still carries `value`. */
  method FailedResultWithValue<E>(executedBy: E, executedCode: AsyncCode<Value>, exception: Option<Error>, value: Value)
    returns (r: AsyncFuncExecutionResult<E>)
    ensures fresh(r)
    ensures r.executedBy == executedBy && r.executedCode == executedCode
    ensures !r.wasSuccessful && r.exception == exception && r.returnValue == value
    ensures exception.Some? ==> r.SucceededIffNoException()
  {
    r := new ExecutionResult(executedBy, executedCode, Null);
    r.exception := exception;
    r.returnValue := value;
  }

  /** The result of an asynchronous function whose task returned `value`. */
  method SuccessResult<E>(executedBy: E, executedCode: AsyncCode<Value>, value: Value) returns (r: AsyncFuncExecutionResult<E>)
    ensures fresh(r)
    ensures r.executedBy == executedBy && r.executedCode == executedCode
    ensures r.wasSuccessful && r.exception == None && r.returnValue == value
    ensures r.SucceededIffNoException()
  {
    r := new ExecutionResult(executedBy, executedCode, Null);
    r.returnValue := value;
    r.wasSuccessful := true;
  }
}

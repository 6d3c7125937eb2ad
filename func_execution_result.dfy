/** FuncExecutionResult.cs: the result of running a synchronous `Func<T>`. */
module FuncExecutionResults {
  import opened Common
  import opened Delegates
  import opened ExecutionResults

  type FuncExecutionResult<E> = ExecutionResult<E, Code<Value>, Value>

  /** The three-argument `FailedResult`: a failure whose return value is `default(T)`. */
  method FailedResult<E>(executedBy: E, executedCode: Code<Value>, exception: Option<Error>)
    returns (r: FuncExecutionResult<E>)
    ensures fresh(r)
    ensures r.executedBy == executedBy && r.executedCode == executedCode
    ensures !r.wasSuccessful && r.exception == exception && r.returnValue == Null
    ensures exception.Some? ==> r.SucceededIffNoException()
  {
    r := FailedResultWithValue(executedBy, executedCode, exception, Null);
  }

  /** The four-argument `FailedResult`: a failure that still carries `value`. */
  method FailedResultWithValue<E>(executedBy: E, executedCode: Code<Value>, exception: Option<Error>, value: Value)
    returns (r: FuncExecutionResult<E>)
    ensures fresh(r)
    ensures r.executedBy == executedBy && r.executedCode == executedCode
    ensures !r.wasSuccessful && r.exception == exception && r.returnValue == value
    ensures exception.Some? ==> r.SucceededIffNoException()
  {
    r := new ExecutionResult(executedBy, executedCode, Null);
    r.exception := exception;
    r.returnValue := value;
  }

  /** The result of a function that returned `value`. */
  method SuccessResult<E>(executedBy: E, executedCode: Code<Value>, value: Value) returns (r: FuncExecutionResult<E>)
    ensures fresh(r)
    ensures r.executedBy == executedBy && r.executedCode == executedCode
    ensures r.wasSuccessful && r.exception == None && r.returnValue == value
    ensures r.SucceededIffNoException()
  {
    r := new ExecutionResult(executedBy, executedCode, Null);
    r.returnValue := value;
    r.wasSuccessful := true;
  }
}

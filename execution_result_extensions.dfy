/** ExecutionResultExtensions.cs: the branch combinators `OnException` and `OnSuccess`, each with
    a handler that takes no argument and one that takes the result. A combinator changes nothing
    of its own; what it does is decide whether the handler runs, so that decision is its output. */
module ExecutionResultExtensions {
  import opened Common
  import opened ExecutionResults

  /** What a combinator with an argument-less handler hands back: the result it was given
      (the combinators return their input for chaining), and whether the handler ran. */
  datatype Branch<R> = Branch(result: R, fired: bool)

  /** What a combinator with an `Action<TExecutionResult>` handler hands back: the result it was
      given, and what the handler was called with, if it was called. */
  datatype BranchWith<R> = BranchWith(result: R, handled: Option<R>)

  /** Whether `OnException` lets its handler run on `result`: a non-null result that did not
      succeed. */
  predicate Fails<E, C, T>(result: ExecutionResult?<E, C, T>)
    reads result
  {
    result != null && !result.wasSuccessful
  }

  /** Whether `OnSuccess` lets its handler run on `result`: a non-null result that succeeded. */
  predicate Succeeds<E, C, T>(result: ExecutionResult?<E, C, T>)
    reads result
  {
    result != null && result.wasSuccessful
  }

  /** `OnException(result, errorHandler)` with an `Action` handler. */
  function OnException<E, C, T>(result: ExecutionResult?<E, C, T>): (b: Branch<ExecutionResult?<E, C, T>>)
    reads result
    ensures b.result == result
    ensures b.fired <==> Fails(result)
  {
    if result == null || result.wasSuccessful then Branch(result, false) else Branch(result, true)
  }

  /** `OnException(result, errorHandler)` with an `Action<TExecutionResult>` handler. */
  function OnExceptionWith<E, C, T>(result: ExecutionResult?<E, C, T>): (b: BranchWith<ExecutionResult?<E, C, T>>)
    reads result
    ensures b.result == result
    ensures b.handled.Some? <==> Fails(result)
    ensures b.handled.Some? ==> b.handled.value == result
  {
    if result == null || result.wasSuccessful then BranchWith(result, None) else BranchWith(result, Some(result))
  }

  /** `OnSuccess(result, successHandler)` with an `Action` handler. */
  function OnSuccess<E, C, T>(result: ExecutionResult?<E, C, T>): (b: Branch<ExecutionResult?<E, C, T>>)
    reads result
    ensures b.result == result
    ensures b.fired <==> Succeeds(result)
  {
    if result == null || !result.wasSuccessful then Branch(result, false) else Branch(result, true)
  }

  /** `OnSuccess(result, successHandler)` with an `Action<TExecutionResult>` handler. */
  function OnSuccessWith<E, C, T>(result: ExecutionResult?<E, C, T>): (b: BranchWith<ExecutionResult?<E, C, T>>)
    reads result
    ensures b.result == result
    ensures b.handled.Some? <==> Succeeds(result)
    ensures b.handled.Some? ==> b.handled.value == result
  {
    if result == null || !result.wasSuccessful then BranchWith(result, None) else BranchWith(result, Some(result))
  }

  /** The chain `result.OnException(h1).OnSuccess(h2)`: on a non-null result exactly one of the
      handlers runs, the one that matches its flag; on null neither runs. The same holds with
      the two combinators the other way round. Handlers are not modelled, so this is the chain
      over handlers that leave the result's flag alone. */
  lemma ExactlyOneHandler<E, C, T>(result: ExecutionResult?<E, C, T>)
    ensures var onException := OnException(result);
            var onSuccess := OnSuccess(onException.result);
            && onSuccess.result == result
            && (result != null ==> (onException.fired != onSuccess.fired))
            && (result != null ==> (onSuccess.fired <==> result.wasSuccessful))
            && (result == null ==> !onException.fired && !onSuccess.fired)
    ensures var onSuccess := OnSuccess(result);
            var onException := OnException(onSuccess.result);
            && onException.result == result
            && (result != null ==> (onException.fired != onSuccess.fired))
            && (result != null ==> (onSuccess.fired <==> result.wasSuccessful))
            && (result == null ==> !onException.fired && !onSuccess.fired)
  {
  }

  /** The overloads agree: the handler that takes the result runs exactly when the argument-less
      one would, and is given the very result the combinator returns. */
  lemma OverloadsAgree<E, C, T>(result: ExecutionResult?<E, C, T>)
    ensures OnExceptionWith(result).handled == (if OnException(result).fired then Some(result) else None)
    ensures OnSuccessWith(result).handled == (if OnSuccess(result).fired then Some(result) else None)
  {
  }
}

/** The behaviours the library's unit tests check, as closed runs of the model: each method
    builds an executor and scripted delegates, runs the library on them and returns what the
    test observes, and its postcondition is the test's assertion. */
module Scenarios {
  import opened Common
  import opened Delegates
  import opened ExecutionResults
  import opened FaultlessExecution
  import opened RetrySpec
  import ExecutionResultExtensions
  import ActionRetry = ActionExecutionResultExtensions
  import FuncRetry = FuncExecutionResultExtensions
  import AsyncActionRetry = AsyncActionExecutionResultExtensions
  import AsyncFuncRetry = AsyncFuncExecutionResultExtensions
  import opened ActionResults
  import ActionResultExtensions

  /** The test delegates' exception. */
  const Failure: Error := Error("i failed")

  /** An action that throws on its first `failures` invocations and returns afterwards. */
  function FailingAction(failures: nat): nat -> Outcome<()>
  {
    (k: nat) => if k < failures then Threw(Failure) else Returned(())
  }

  /** A function that throws on its first `failures` invocations and then returns `value`. */
  function FailingFunc(failures: nat, value: Value): nat -> Outcome<Value>
  {
    (k: nat) => if k < failures then Threw(Failure) else Returned(value)
  }

  /** The condition `(a) => false`. */
  function AlwaysFalse(call: nat): bool
  {
    false
  }

  /** A function that returns on its first run: the result is successful, was run by the
      executor, runs the code once and carries its value. */
  method FuncSucceeds() returns (runs: nat, succeeded: bool, value: Value, byService: bool)
    ensures runs == 1 && succeeded && value == Str("i ran successfully") && byService
  {
    var service := new FaultlessExecutionService(false);
    var code := new Code<Value>(FailingFunc(0, Str("i ran successfully")));
    var result := service.TryExecuteFunc(code, "");
    runs, succeeded, value := code.runs, result.wasSuccessful, result.returnValue;
    byService := result.executedBy == service && result.executedCode == code;
  }

  /** A function that throws: the failure is caught, the code ran once, and the result carries
      the exception and `default(T)`. */
  method FuncFails() returns (runs: nat, succeeded: bool, exception: Option<Error>, value: Value)
    ensures runs == 1 && !succeeded && exception == Some(Failure) && value == Null
  {
    var service := new FaultlessExecutionService(false);
    var code := new Code<Value>(FailingFunc(1, Str("i ran successfully")));
    var result := service.TryExecuteFunc(code, "");
    runs, succeeded, exception, value := code.runs, result.wasSuccessful, result.exception, result.returnValue;
  }

  /** `TryExecuteSyncAsAsync(a)` runs `a` once, and the result's code is the wrapper around it. */
  method SyncAsAsyncRunsOnce() returns (runs: nat, wrapped: bool)
    ensures runs == 1 && wrapped
  {
    var service := new FaultlessExecutionService(false);
    var code := new Code<()>(FailingAction(0));
    var result := service.TryExecuteSyncAsAsyncAction(code, "");
    runs := code.runs;
    wrapped := result.executedCode.body == code;
  }

  /** A logging executor whose code throws, with no message given: the logger gets the default
      message, and then `OnException` and `OnResult` fire. */
  method FailureIsLogged() returns (events: seq<Event>)
    ensures events == [Logged(Failure, DefaultMessagePrefix + "i failed"), ExceptionHandled(Failure), ResultReported]
  {
    var service := new FaultlessExecutionService(true);
    var code := new Code<()>(FailingAction(1));
    var result := service.TryExecuteAction(code, "");
    events := service.events;
  }

  /** `RetryOnce` on a successful action does not run it again. */
  method RetryOnceAfterSuccess() returns (runs: nat, same: bool)
    ensures runs == 1 && same
  {
    var service := new FaultlessExecutionService(false);
    var code := new Code<()>(FailingAction(0));
    var result := service.TryExecuteAction(code, "");
    var retried := ActionRetry.RetryOnce(result);
    runs, same := code.runs, retried == result;
  }

  /** `RetryOnce` on a failed action runs it exactly once more. */
  method RetryOnceAfterFailure() returns (runs: nat)
    ensures runs == 2
  {
    var service := new FaultlessExecutionService(false);
    var code := new Code<()>(FailingAction(100));
    var result := service.TryExecuteAction(code, "");
    AlwaysFailing(AlwaysTrue, code.script, service.Logs(), 1, 0, 1, service.events);
    var retried := ActionRetry.RetryOnce(result);
    runs := code.runs;
  }

  /** `RetryOnceIf` on a successful action never asks the condition. */
  method RetryOnceIfAfterSuccess() returns (calls: nat, runs: nat)
    ensures calls == 0 && runs == 1
  {
    var service := new FaultlessExecutionService(false);
    var code := new Code<()>(FailingAction(0));
    var result := service.TryExecuteAction(code, "");
    var condition := new RetryCondition<ActionRetry.Result>(AlwaysTrue);
    var retried := ActionRetry.RetryOnceIf(result, condition);
    calls, runs := |condition.arguments|, code.runs;
  }

  /** `RetryOnceIf` with a condition that answers false asks it once and runs nothing more. */
  method RetryOnceIfRefused() returns (calls: nat, runs: nat, same: bool)
    ensures calls == 1 && runs == 1 && same
  {
    var service := new FaultlessExecutionService(false);
    var code := new Code<()>(FailingAction(100));
    var result := service.TryExecuteAction(code, "");
    var condition := new RetryCondition<ActionRetry.Result>(AlwaysFalse);
    NeverApproved(AlwaysFalse, code.script, service.Logs(), 1, 0, 1, service.events);
    var retried := ActionRetry.RetryOnceIf(result, condition);
    calls, runs, same := |condition.arguments|, code.runs, retried == result;
  }

  /** Always failing, approved every time, with `retries` retries allowed (ten in the test):
      `retries` questions, one run more than that, and the original result back, which the
      condition was shown every time. */
  method RetryUntilExhausted(retries: nat) returns (calls: nat, runs: nat, original: bool, shownOriginal: bool)
    ensures calls == retries && runs == retries + 1 && original && shownOriginal
  {
    var service := new FaultlessExecutionService(false);
    var code := new Code<()>(FailingAction(retries + 1));
    var result := service.TryExecuteAction(code, "");
    var condition := new RetryCondition<ActionRetry.Result>(AlwaysTrue);
    AlwaysFailing(AlwaysTrue, code.script, service.Logs(), retries, 0, 1, service.events);
    var retried := ActionRetry.RetryIf(result, condition, retries);
    calls, runs, original := |condition.arguments|, code.runs, retried == result;
    shownOriginal := forall i :: 0 <= i < |condition.arguments| ==> condition.arguments[i] == result;
  }

  /** Failing `failures` more times after the first run, then succeeding, with more retries
      allowed than that (two failures and ten retries in the test): one question and one run per
      retry up to the success, and a successful result. */
  method RetryUntilSuccess(failures: nat, retries: nat) returns (calls: nat, runs: nat, succeeded: bool)
    requires failures < retries
    ensures calls == failures + 1 && runs == failures + 2 && succeeded
  {
    var service := new FaultlessExecutionService(false);
    var code := new Code<()>(FailingAction(failures + 1));
    var result := service.TryExecuteAction(code, "");
    var condition := new RetryCondition<ActionRetry.Result>(AlwaysTrue);
    FailuresThenSuccess(AlwaysTrue, code.script, service.Logs(), retries, 0, 1, service.events, failures, ());
    var retried := ActionRetry.RetryIf(result, condition, retries);
    calls, runs := |condition.arguments|, code.runs;
    succeeded := retried != null && retried.wasSuccessful;
  }

  /** The same for a function: the successful retry carries the value of the run that returned. */
  method FuncRetryUntilSuccess(failures: nat, retries: nat, v: Value)
    returns (calls: nat, runs: nat, succeeded: bool, value: Value)
    requires failures < retries
    ensures calls == failures + 1 && runs == failures + 2 && succeeded && value == v
  {
    var service := new FaultlessExecutionService(false);
    var code := new Code<Value>(FailingFunc(failures + 1, v));
    var result := service.TryExecuteFunc(code, "");
    var condition := new RetryCondition<FuncRetry.Result>(AlwaysTrue);
    FailuresThenSuccess(AlwaysTrue, code.script, service.Logs(), retries, 0, 1, service.events, failures, v);
    var retried := FuncRetry.RetryIf(result, condition, retries);
    calls, runs := |condition.arguments|, code.runs;
    succeeded := retried != null && retried.wasSuccessful;
    value := if retried != null then retried.returnValue else Null;
  }

  /** `RetryOnce` on a failed asynchronous action runs its body twice in all. */
  method AsyncRetryOnceAfterFailure() returns (runs: nat)
    ensures runs == 2
  {
    var service := new FaultlessExecutionService(false);
    var body := new Code<()>(FailingAction(100));
    var code := new AsyncCode<()>(body);
    var task := service.TryExecuteAsyncAction(code, "");
    AlwaysFailing(AlwaysTrue, body.script, service.Logs(), 1, 0, 1, service.events);
    var retried := AsyncActionRetry.RetryOnce(task);
    runs := body.runs;
  }

  /** An asynchronous function failing `failures` more times after the first run, then
      succeeding, within the retries allowed. */
  method AsyncFuncRetryUntilSuccess(failures: nat, retries: nat) returns (calls: nat, runs: nat, succeeded: bool)
    requires failures < retries
    ensures calls == failures + 1 && runs == failures + 2 && succeeded
  {
    var service := new FaultlessExecutionService(false);
    var body := new Code<Value>(FailingFunc(failures + 1, Str("done")));
    var code := new AsyncCode<Value>(body);
    var task := service.TryExecuteAsyncFunc(code, "");
    var condition := new RetryCondition<AsyncFuncRetry.Result>(AlwaysTrue);
    FailuresThenSuccess(AlwaysTrue, body.script, service.Logs(), retries, 0, 1, service.events, failures, Str("done"));
    var retried := AsyncFuncRetry.RetryIf(task, condition, retries);
    calls, runs := |condition.arguments|, body.runs;
    succeeded := retried != null && retried.wasSuccessful;
  }

  /** `TryExecute(a).RetryOnce().OnException(h1).OnSuccess(h2)` for an action that fails once and
      then succeeds: the retry succeeds, so only the success handler runs, after two runs. */
  method ChainAfterSuccessfulRetry() returns (onExceptionFired: bool, onSuccessFired: bool, runs: nat)
    ensures !onExceptionFired && onSuccessFired && runs == 2
  {
    var service := new FaultlessExecutionService(false);
    var code := new Code<()>(FailingAction(1));
    var result := service.TryExecuteAction(code, "");
    FailuresThenSuccess(AlwaysTrue, code.script, service.Logs(), 1, 0, 1, service.events, 0, ());
    var retried := ActionRetry.RetryOnce(result);
    var onException := ExecutionResultExtensions.OnException(retried);
    var onSuccess := ExecutionResultExtensions.OnSuccess(onException.result);
    onExceptionFired, onSuccessFired, runs := onException.fired, onSuccess.fired, code.runs;
  }

  /** The same chain for an action that always fails: only the exception handler runs. */
  method ChainAfterFailedRetry() returns (onExceptionFired: bool, onSuccessFired: bool, runs: nat)
    ensures onExceptionFired && !onSuccessFired && runs == 2
  {
    var service := new FaultlessExecutionService(false);
    var code := new Code<()>(FailingAction(100));
    var result := service.TryExecuteAction(code, "");
    AlwaysFailing(AlwaysTrue, code.script, service.Logs(), 1, 0, 1, service.events);
    var retried := ActionRetry.RetryOnce(result);
    var onException := ExecutionResultExtensions.OnException(retried);
    var onSuccess := ExecutionResultExtensions.OnSuccess(onException.result);
    onExceptionFired, onSuccessFired, runs := onException.fired, onSuccess.fired, code.runs;
  }

  /** A result whose flag is set by hand, as the combinator tests do: marked unsuccessful with
      no exception, `OnException` runs and `OnSuccess` does not, although the result does not
      read as success iff no exception; marked successful, the other way round. */
  method FlagSetByHand() returns (failedFires: bool, failedSucceeds: bool, failedConsistent: bool,
                                  succeededFires: bool, succeededSucceeds: bool)
    ensures failedFires && !failedSucceeds && !failedConsistent
    ensures !succeededFires && succeededSucceeds
  {
    var service := new FaultlessExecutionService(false);
    var code := new Code<()>(FailingAction(0));
    var result := new ExecutionResult<FaultlessExecutionService, Code<()>, ()>(service, code, ());
    result.wasSuccessful := false;
    failedFires := ExecutionResultExtensions.OnException(result).fired;
    failedSucceeds := ExecutionResultExtensions.OnSuccess(result).fired;
    failedConsistent := result.SucceededIffNoException();
    result.wasSuccessful := true;
    succeededFires := ExecutionResultExtensions.OnException(result).fired;
    succeededSucceeds := ExecutionResultExtensions.OnSuccess(result).fired;
  }

  /** The default configuration is created once and shared afterwards. */
  method DefaultConfigurationShared() returns (same: bool, builder: Option<Builder>)
    ensures same && builder == Some(DefaultBadRequestObject)
  {
    var defaults := new ConfigurationDefaults();
    var first := defaults.DefaultConfiguration();
    var second := defaults.DefaultConfiguration();
    same, builder := first == second, second.badRequestObjectBuilder;
  }

  /** With no configuration of its own and no shared default yet, a success through the MVC
      service answers Ok with the value and does not create the default. */
  method MvcSuccessLeavesDefault() returns (okResponse: Response, untouched: bool)
    ensures okResponse == Ok(Obj(1)) && untouched
  {
    var defaults := new ConfigurationDefaults();
    var executor := new FaultlessExecutionService(true);
    var mvc := new ActionResultService(executor, defaults);
    var succeeds := new Code<Value>(FailingFunc(0, Obj(1)));
    okResponse := mvc.TryExecuteSyncAsAsyncFunc(succeeds, "");
    untouched := defaults.defaultConfiguration == null;
  }

  /** With no configuration of its own and no shared default yet, the first failure through the
      MVC service after a success creates the default, answering a bad request with the
      exception's message. A second service sharing that default answers the same on two failures
      in a row, and the default is not replaced. */
  method MvcDefaultCreatedOnFailure() returns (firstFailure: Response, first: Response, second: Response,
                                                created: bool, shared: bool)
    ensures firstFailure == BadRequest(Str("boom")) && first == BadRequest(Str("boom"))
    ensures second == BadRequest(Str("boom")) && created && shared
  {
    var defaults := new ConfigurationDefaults();
    var executor := new FaultlessExecutionService(true);
    var mvc := new ActionResultService(executor, defaults);
    var succeeds := new Code<Value>(FailingFunc(0, Obj(1)));
    var ok := mvc.TryExecuteSyncAsAsyncFunc(succeeds, "");
    var boom := new Code<()>((k: nat) => Threw(Error("boom")));
    firstFailure := mvc.TryExecuteSyncAsAsyncAction(boom, "");
    created := defaults.defaultConfiguration != null;
    var createdDefault := defaults.defaultConfiguration;
    var other := new ActionResultService(executor, defaults);
    first := other.TryExecuteSyncAsAsyncAction(boom, "");
    second := other.TryExecuteSyncAsAsyncAction(boom, "");
    shared := defaults.defaultConfiguration == createdDefault;
  }

  /** Through the MVC service with no configuration of its own, a failing function answers a bad
      request carrying the exception's message, the wrapped executor does not log, and a
      function returning null answers Not Found once rewritten. */
  method MvcResponses() returns (failed: Response, nullValue: Response, infoLogs: nat, logged: bool)
    ensures failed == BadRequest(Str("i failed")) && nullValue == NotFound && infoLogs == 1 && !logged
  {
    var executor := new FaultlessExecutionService(true);
    var defaults := new ConfigurationDefaults();
    var mvc := new ActionResultService(executor, defaults);
    var failing := new Code<Value>(FailingFunc(1, Null));
    failed := mvc.TryExecuteSyncAsAsyncFunc(failing, "");
    var returnsNull := new Code<Value>(FailingFunc(0, Null));
    var response := mvc.TryExecuteSyncAsAsyncFunc(returnsNull, "");
    nullValue := ActionResultExtensions.OnOkNullReturnNotFound(response);
    infoLogs := mvc.informationLogs;
    logged := exists i :: 0 <= i < |executor.events| && executor.events[i].Logged?;
  }
}

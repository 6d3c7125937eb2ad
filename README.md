# FaultlessExecution, modelled in Dafny

FaultlessExecution is a small C# library for containing faults. `FaultlessExecutionService` runs caller code (a synchronous or asynchronous action or function) exactly once. If the code throws, the exception is caught and returned as a failed `ExecutionResult`. When logging is on and a logger exists, the executor logs the failure. It then fires its `OnException` hook, and it fires its `OnResult` hook for every result.

On top of the executor sit three pieces:

- **Retry extensions.** `RetryIf`, with its wrappers `RetryOnce`, `Retry` and `RetryOnceIf`, is written once per result shape. It resubmits a failed result's code to the executor that ran it. This repeats while a condition approves, up to a bound, and stops at the first success.
- **Branch combinators.** `OnException` and `OnSuccess` run a handler according to the success flag.
- **MVC front.** An ASP.NET Core service turns results into HTTP responses: Ok, NoContent or BadRequest, with a configurable bad-request body. `OnOkNullReturnNotFound` rewrites an Ok without a value into NotFound.

The model keeps the library's own structure:

- **Results are objects.** `ExecutionResults.ExecutionResult<E, C, T>` is a class. Its `ExecutedBy` and `ExecutedCode` are constants, and its `WasSuccessful`, `Exception` and `ReturnValue` are fields anyone may assign.
  - `C` tells the four shapes apart: synchronous action, synchronous function, asynchronous action, asynchronous function.
  - One module per shape holds that shape's factories.
- **The executor is a class.** It has a logger flag and a mutable `logErrors`.
  - It records, in order, every logger call and every hook call (`events`).
  - It also records every result handed to `OnResult` (`reportedResults`).
- **Caller code is a delegate object with a script.** Its k-th invocation returns a value or throws, and it counts its invocations.
  - An asynchronous delegate wraps such a script; awaiting it runs the script once.
  - A retry condition answers `answers(k)` on its k-th call and records every argument it was shown.
- **The retry loops are the source's own `while` loops.**
  - There are four copies, one per module, as in the source.
  - Each is proved against one reference function, `RetrySpec.RetryLoop`.
  - `RetryLoop` states how a loop run ends on given scripts: the first successful retry, or running out of attempts. It also gives the counters and the executor's events at that point.
  - Lemmas about `RetryLoop` give the counts that the library's tests pin down.
- **Combinators and response mapping are functions.** The branch combinators, the response mapping and `OnOkNullReturnNotFound` are functions, whose output includes whether each handler ran.
- **Scenarios replay the tests.** The `Scenarios` module replays the library's unit tests as closed runs of the model. Each test's assertion is the postcondition of one method. Where a test uses a fixed retry bound, the method states the same result for every bound.

## Model

| member | source | states |
|---|---|---|
| ExecutionResults.ExecutionResult.constructor | src/FaultlessExecution.Abstractions/ExecutionResult.cs:9-15 | records exactly the given executor and code; a new result is unsuccessful with no exception and carries the shape's default value |
| ActionExecutionResults.SuccessResult | src/FaultlessExecution.Abstractions/ActionExecutionResult.cs:14-17 | a fresh result with the given executor and code, successful, no exception, so success iff no exception |
| ActionExecutionResults.FailedResult | src/FaultlessExecution.Abstractions/ActionExecutionResult.cs:19-25 | a fresh unsuccessful result with the given executor, code and exception; for a non-null exception success iff no exception holds |
| FuncExecutionResults.SuccessResult | src/FaultlessExecution.Abstractions/FuncExecutionResult.cs:30-33 | a fresh successful result with the given executor and code, no exception, and exactly the given return value |
| FuncExecutionResults.FailedResult | src/FaultlessExecution.Abstractions/FuncExecutionResult.cs:18-21 | a fresh unsuccessful result with the given exception whose return value is `default(T)` |
| FuncExecutionResults.FailedResultWithValue | src/FaultlessExecution.Abstractions/FuncExecutionResult.cs:22-29 | a fresh unsuccessful result carrying both the given exception and the given value |
| AsyncActionExecutionResults.SuccessResult | src/FaultlessExecution.Abstractions/AsyncActionExecutionResult.cs:15-18 | as for the synchronous action, over an asynchronous delegate |
| AsyncActionExecutionResults.FailedResult | src/FaultlessExecution.Abstractions/AsyncActionExecutionResult.cs:20-26 | as for the synchronous action, over an asynchronous delegate |
| AsyncFuncExecutionResults.SuccessResult | src/FaultlessExecution.Abstractions/AsyncFuncExecutionResult.cs:29-32 | as for the synchronous function, over an asynchronous delegate |
| AsyncFuncExecutionResults.FailedResult | src/FaultlessExecution.Abstractions/AsyncFuncExecutionResult.cs:17-20 | an unsuccessful result with the given exception and the value `default(T)` |
| AsyncFuncExecutionResults.FailedResultWithValue | src/FaultlessExecution.Abstractions/AsyncFuncExecutionResult.cs:21-28 | an unsuccessful result with the given exception and value |
| Delegates.Code.Invoke | src/FaultlessExecution/FaultlessExecutionService.cs:23 | one invocation: the outcome is the script's entry for the current run count, which goes up by one |
| Delegates.AsyncCode.InvokeAndAwait | src/FaultlessExecution/FaultlessExecutionService.cs:43 | invoking and awaiting an asynchronous delegate runs its body exactly once |
| Delegates.RetryCondition.Invoke | src/FaultlessExecution/Extensions/ActionExecutionResultExtensions.cs:31 | the condition's k-th answer, with the argument appended to what it has been shown |
| FaultlessExecution.LogMessage | src/FaultlessExecution/FaultlessExecutionService.cs:117-120 | never empty; the caller's message when non-empty, otherwise exactly the default prefix followed by the exception's message |
| FaultlessExecution.FailureEventsOrder | src/FaultlessExecution/FaultlessExecutionService.cs:113-125 | a caught exception is logged (once, with `LogMessage`'s text) only when the executor logs, always before `OnException`, which fires once and last |
| FaultlessExecution.AttemptEventsOrder | src/FaultlessExecution/FaultlessExecutionService.cs:29-34 | every call fires `OnResult` exactly once and last; `OnException` fires exactly once on a throw, never on a return |
| FaultlessExecution.FaultlessExecutionService.constructor | src/FaultlessExecution/FaultlessExecutionService.cs:12-15 | records whether a logger exists; `LogErrors` starts true; nothing recorded yet |
| FaultlessExecution.FaultlessExecutionService.TryExecuteFunc | src/FaultlessExecution/FaultlessExecutionService.cs:18-35 | the code runs exactly once; the fresh result names this executor and the code, succeeds iff the code returned, carries its exception or its value (`default` on failure); events are the protocol's; `OnResult` got exactly this result |
| FaultlessExecution.FaultlessExecutionService.TryExecuteAsyncFunc | src/FaultlessExecution/FaultlessExecutionService.cs:37-55 | the same for an awaited asynchronous function |
| FaultlessExecution.FaultlessExecutionService.TryExecuteSyncAsAsyncFunc | src/FaultlessExecution/FaultlessExecutionService.cs:57-61 | the code runs once, and the result's `ExecutedCode` is a fresh wrapper around it, not the code itself |
| FaultlessExecution.FaultlessExecutionService.TryExecuteAction | src/FaultlessExecution/FaultlessExecutionService.cs:66-83 | as `TryExecuteFunc` for an action, without a return value |
| FaultlessExecution.FaultlessExecutionService.TryExecuteAsyncAction | src/FaultlessExecution/FaultlessExecutionService.cs:85-102 | as `TryExecuteAction` for an awaited asynchronous action |
| FaultlessExecution.FaultlessExecutionService.TryExecuteSyncAsAsyncAction | src/FaultlessExecution/FaultlessExecutionService.cs:104-109 | the action runs once, through a fresh asynchronous wrapper that becomes the result's code |
| FaultlessExecution.FaultlessExecutionService.HandleException | src/FaultlessExecution/FaultlessExecutionService.cs:113-125 | logs iff `LogErrors` and a logger exists, with the chosen message, then fires `OnException` regardless |
| FaultlessExecution.FaultlessExecutionService.LogError | src/FaultlessExecution/FaultlessExecutionService.cs:122 | records one logger call with the exception and the message |
| FaultlessExecution.FaultlessExecutionService.OnException | src/FaultlessExecution/FaultlessExecutionService.cs:136 | records one firing of the hook, with the exception |
| FaultlessExecution.FaultlessExecutionService.OnResult | src/FaultlessExecution/FaultlessExecutionService.cs:138-141 | records one firing of the hook, with the very result |
| RetrySpec.Attempts | src/FaultlessExecution/Extensions/ActionExecutionResultExtensions.cs:28-29 | how often `while (count < numberOfRetries)` can go round: zero for a non-positive bound, the bound otherwise |
| RetrySpec.RetryLoop | src/FaultlessExecution/Extensions/ActionExecutionResultExtensions.cs:28-40 | the loop asks the condition at most `remaining` times and runs the code at least as often as before, and strictly more often when a retry succeeded |
| RetrySpec.RunsWithinCalls | src/FaultlessExecution/Extensions/ActionExecutionResultExtensions.cs:31-33 | the code runs at most once per question the condition is asked; events only grow |
| RetrySpec.ExhaustedAllFailed | src/FaultlessExecution/Extensions/ActionExecutionResultExtensions.cs:29-40 | a loop that returns the original result asked the condition on every iteration, and every retry it ran threw |
| RetrySpec.SucceededAtFirstSuccess | src/FaultlessExecution/Extensions/ActionExecutionResultExtensions.cs:33-35 | a successful loop stops at the first run that returned: its value is that run's, and every earlier retry threw |
| RetrySpec.AlwaysFailing | src/FaultlessExecutionTests/Extensions/ActionExecutionResultExtensionTests.cs:164-176 | an always-true condition over always-failing code: N questions and N runs, and the loop is exhausted |
| RetrySpec.NeverApproved | src/FaultlessExecutionTests/Extensions/ActionExecutionResultExtensionTests.cs:135-146 | an always-false condition is asked N times, the code never runs again, and nothing is recorded |
| RetrySpec.FailuresThenSuccess | src/FaultlessExecutionTests/Extensions/ActionExecutionResultExtensionTests.cs:179-198 | code that fails k more times and then returns, within the bound: k+1 questions, k+1 runs, success with that run's value |
| ActionExecutionResultExtensions.RetryOnce | src/FaultlessExecution/Extensions/ActionExecutionResultExtensions.cs:7-10 | null or successful: returned untouched; failed: the loop of `RetryIf` with the always-true condition and one attempt |
| ActionExecutionResultExtensions.Retry | src/FaultlessExecution/Extensions/ActionExecutionResultExtensions.cs:12-17 | the loop of `RetryIf` under the always-true condition with the given bound |
| ActionExecutionResultExtensions.RetryOnceIf | src/FaultlessExecution/Extensions/ActionExecutionResultExtensions.cs:19-22 | the loop of `RetryIf` under the given condition with one attempt, the condition shown only the original result |
| ActionExecutionResultExtensions.RetryIf | src/FaultlessExecution/Extensions/ActionExecutionResultExtensions.cs:24-41 | null or successful: returned with no question and no run; failed: the new state and result are those of `RetryLoop` — code counter, events, one report per run, original result on exhaustion, the first successful retry (fresh, same executor and code) otherwise — and the condition was shown the original result once per question |
| ActionExecutionResultExtensions.RetryFailed | src/FaultlessExecution/Extensions/ActionExecutionResultExtensions.cs:28-40 | the loop on a failed result meets `SyncRetried` against the state before it |
| ActionExecutionResultExtensions.RunRetries | src/FaultlessExecution/Extensions/ActionExecutionResultExtensions.cs:28-40 | the `while` loop ends in the state `RetryLoop` predicts, returning the original result exactly when it is exhausted |
| ActionExecutionResultExtensions.Attempt | src/FaultlessExecution/Extensions/ActionExecutionResultExtensions.cs:31-36 | one iteration: either the loop state for the next count, or the successful retry that `RetryLoop` stops at |
| FuncExecutionResultExtensions.RetryOnce | src/FaultlessExecution/Extensions/FuncExecutionResultExtensions.cs:7-10 | as for actions |
| FuncExecutionResultExtensions.Retry | src/FaultlessExecution/Extensions/FuncExecutionResultExtensions.cs:12-17 | as for actions |
| FuncExecutionResultExtensions.RetryOnceIf | src/FaultlessExecution/Extensions/FuncExecutionResultExtensions.cs:19-22 | as for actions |
| FuncExecutionResultExtensions.RetryIf | src/FaultlessExecution/Extensions/FuncExecutionResultExtensions.cs:24-41 | as for actions; a successful retry also carries the return value of the run that returned |
| FuncExecutionResultExtensions.RetryFailed | src/FaultlessExecution/Extensions/FuncExecutionResultExtensions.cs:28-40 | as for actions |
| FuncExecutionResultExtensions.RunRetries | src/FaultlessExecution/Extensions/FuncExecutionResultExtensions.cs:28-40 | as for actions |
| FuncExecutionResultExtensions.Attempt | src/FaultlessExecution/Extensions/FuncExecutionResultExtensions.cs:31-36 | as for actions, with the retry's return value |
| AsyncActionExecutionResultExtensions.RetryOnce | src/FaultlessExecution/Extensions/AsyncActionExecutionResultExtensions.cs:8-11 | as for actions, on the awaited result |
| AsyncActionExecutionResultExtensions.Retry | src/FaultlessExecution/Extensions/AsyncActionExecutionResultExtensions.cs:13-18 | as for actions, on the awaited result |
| AsyncActionExecutionResultExtensions.RetryOnceIf | src/FaultlessExecution/Extensions/AsyncActionExecutionResultExtensions.cs:20-23 | as for actions, on the awaited result |
| AsyncActionExecutionResultExtensions.RetryIf | src/FaultlessExecution/Extensions/AsyncActionExecutionResultExtensions.cs:25-44 | the awaited result, then as for actions with resubmission through `TryExecuteAsync`; `AsyncRetried` ties the state to `RetryLoop` over the delegate's body |
| AsyncActionExecutionResultExtensions.RetryFailed | src/FaultlessExecution/Extensions/AsyncActionExecutionResultExtensions.cs:31-43 | as for actions, against `AsyncRetried` |
| AsyncActionExecutionResultExtensions.RunRetries | src/FaultlessExecution/Extensions/AsyncActionExecutionResultExtensions.cs:31-43 | as for actions |
| AsyncActionExecutionResultExtensions.Attempt | src/FaultlessExecution/Extensions/AsyncActionExecutionResultExtensions.cs:34-39 | as for actions |
| AsyncFuncExecutionResultExtensions.RetryOnce | src/FaultlessExecution/Extensions/AsyncFuncExecutionResultExtensions.cs:8-11 | as for functions, on the awaited result |
| AsyncFuncExecutionResultExtensions.Retry | src/FaultlessExecution/Extensions/AsyncFuncExecutionResultExtensions.cs:13-18 | as for functions, on the awaited result |
| AsyncFuncExecutionResultExtensions.RetryOnceIf | src/FaultlessExecution/Extensions/AsyncFuncExecutionResultExtensions.cs:20-23 | as for functions, on the awaited result |
| AsyncFuncExecutionResultExtensions.RetryIf | src/FaultlessExecution/Extensions/AsyncFuncExecutionResultExtensions.cs:25-44 | the awaited result, then as for functions with resubmission through `TryExecuteAsync` |
| AsyncFuncExecutionResultExtensions.RetryFailed | src/FaultlessExecution/Extensions/AsyncFuncExecutionResultExtensions.cs:31-43 | as for functions, against `AsyncRetried` |
| AsyncFuncExecutionResultExtensions.RunRetries | src/FaultlessExecution/Extensions/AsyncFuncExecutionResultExtensions.cs:31-43 | as for functions |
| AsyncFuncExecutionResultExtensions.Attempt | src/FaultlessExecution/Extensions/AsyncFuncExecutionResultExtensions.cs:34-39 | as for functions |
| ExecutionResultExtensions.OnException | src/FaultlessExecution/Extensions/ExecutionResultExtensions.cs:9-17 | returns its input; the handler runs iff the result is non-null and unsuccessful |
| ExecutionResultExtensions.OnExceptionWith | src/FaultlessExecution/Extensions/ExecutionResultExtensions.cs:19-27 | returns its input; the handler runs iff the result is non-null and unsuccessful, and is given that very result |
| ExecutionResultExtensions.OnSuccess | src/FaultlessExecution/Extensions/ExecutionResultExtensions.cs:29-37 | returns its input; the handler runs iff the result is non-null and successful |
| ExecutionResultExtensions.OnSuccessWith | src/FaultlessExecution/Extensions/ExecutionResultExtensions.cs:38-46 | returns its input; the handler runs iff the result is non-null and successful, and is given that very result |
| ExecutionResultExtensions.ExactlyOneHandler | src/FaultlessExecutionTests/Extensions/ActionExecutionResultExtensionTests.cs:50-104 | chained in either order, the input comes back; on a non-null result exactly one handler runs, the one matching the flag; on null neither runs (for handlers that leave the flag alone) |
| ExecutionResultExtensions.OverloadsAgree | src/FaultlessExecution/Extensions/ExecutionResultExtensions.cs:9-46 | the overload that takes the result runs exactly when the argument-less one does |
| ActionResults.DefaultBadRequestObject | src/FaultlessExecution.AspNetCore.Mvc/ActionResultFaultlessExecutionService.cs:91 | null exactly for a null result or one without exception, the exception's message otherwise |
| ActionResults.BadRequestBody | src/FaultlessExecution.AspNetCore.Mvc/ActionResultFaultlessExecutionService.cs:70 | a null builder gives a null body; otherwise the builder's answer for the result |
| ActionResults.EffectiveBuilder | src/FaultlessExecution.AspNetCore.Mvc/ActionResultFaultlessExecutionService.cs:67 | the service's own configuration when it has one, otherwise the shared default, which has the default builder when it is yet to be created |
| ActionResults.FuncResponse | src/FaultlessExecution.AspNetCore.Mvc/ActionResultFaultlessExecutionService.cs:24-32 | Ok iff successful, carrying exactly the return value; otherwise a bad request with the built body |
| ActionResults.ActionResponse | src/FaultlessExecution.AspNetCore.Mvc/ActionResultFaultlessExecutionService.cs:45-53 | NoContent iff successful; otherwise a bad request with the built body |
| ActionResults.Configuration.constructor | src/FaultlessExecution.AspNetCore.Mvc/ActionResultFaultlessExecutionService.cs:100 | a new configuration has no builder |
| ActionResults.Configuration.Clone | src/FaultlessExecution.AspNetCore.Mvc/ActionResultFaultlessExecutionService.cs:108-114 | a fresh configuration with the same builder |
| ActionResults.ConfigurationDefaults.DefaultConfiguration | src/FaultlessExecution.AspNetCore.Mvc/ActionResultFaultlessExecutionService.cs:83-96 | created with the default builder on first access; every later access returns that same instance |
| ActionResults.ActionResultService.constructor | src/FaultlessExecution.AspNetCore.Mvc/ActionResultFaultlessExecutionService.cs:13-19 | turns the wrapped executor's `LogErrors` off, so it logs nothing, and otherwise leaves it as it was |
| ActionResults.ActionResultService.BuildBadRequestObject | src/FaultlessExecution.AspNetCore.Mvc/ActionResultFaultlessExecutionService.cs:65-71 | the body is the effective builder's answer; the shared default is created, fresh and with the default builder, only when it is the one needed and does not exist yet, and is left as it was otherwise |
| ActionResults.ActionResultService.TryExecuteAsyncFunc | src/FaultlessExecution.AspNetCore.Mvc/ActionResultFaultlessExecutionService.cs:21-33 | the code runs once through the executor, which reports exactly one result; Ok with its value, or, after one information log, a bad request whose body the effective builder makes from the failed result; the shared default is created with the default builder exactly when a failure needs it and it does not exist yet, and is untouched otherwise |
| ActionResults.ActionResultService.TryExecuteSyncAsAsyncFunc | src/FaultlessExecution.AspNetCore.Mvc/ActionResultFaultlessExecutionService.cs:35-39 | the same for a synchronous function |
| ActionResults.ActionResultService.TryExecuteAsyncAction | src/FaultlessExecution.AspNetCore.Mvc/ActionResultFaultlessExecutionService.cs:42-54 | the code runs once; NoContent, or a bad request as above |
| ActionResults.ActionResultService.TryExecuteSyncAsAsyncAction | src/FaultlessExecution.AspNetCore.Mvc/ActionResultFaultlessExecutionService.cs:57-61 | the same for a synchronous action |
| ActionResults.ActionResultService.LogInformation | src/FaultlessExecution.AspNetCore.Mvc/ActionResultFaultlessExecutionService.cs:30 | records one information log |
| ActionResults.DefaultBodyIsMessage | src/FaultlessExecution.AspNetCore.Mvc/ActionResultFaultlessExecutionService.cs:91 | under the default builder a failed result's bad request carries the exception's message |
| ActionResultExtensions.OnOkNullReturnNotFound | src/FaultlessExecution.AspNetCore.Mvc/ActionResultExtensions.cs:11-28 | Ok with a null value becomes NotFound; every other response, Ok with a value included, is returned unchanged |
| ActionResultExtensions.OnOkNullReturnNotFoundIdempotent | src/FaultlessExecution.AspNetCore.Mvc/ActionResultExtensions.cs:22-27 | the rewrite never answers Ok without a value, and applying it twice equals applying it once |
| ActionResultExtensions.NotFoundAfterFuncResponse | src/FaultlessExecution.AspNetCore.Mvc/ActionResultExtensions.cs:18-28 | after the MVC service: a null success answers NotFound, a valued success Ok with the value, a failure the same bad request |
| ActionResultExtensions.ActionResponseUntouched | src/FaultlessExecution.AspNetCore.Mvc/ActionResultExtensions.cs:20-23 | an action's responses are never Ok, so the rewrite leaves them alone |
| Scenarios.FuncSucceeds | src/FaultlessExecutionTests/FaultlessExectutionServiceTests.cs:177-192 | a returning function: one run, success, its value, this executor and this code |
| Scenarios.FuncFails | src/FaultlessExecutionTests/FaultlessExectutionServiceTests.cs:195-212 | a throwing function: one run, failure, that exception, and the default value |
| Scenarios.SyncAsAsyncRunsOnce | src/FaultlessExecutionTests/FaultlessExectutionServiceTests.cs:136-147 | the synchronous action runs once, and the result's code wraps it |
| Scenarios.FailureIsLogged | src/FaultlessExecution/FaultlessExecutionService.cs:113-125 | a logging executor with no message: the default message is logged, then `OnException`, then `OnResult` |
| Scenarios.RetryOnceAfterSuccess | src/FaultlessExecutionTests/Extensions/ActionExecutionResultExtensionTests.cs:37-47 | one run in all, and the same result back |
| Scenarios.RetryOnceAfterFailure | src/FaultlessExecutionTests/Extensions/ActionExecutionResultExtensionTests.cs:107-117 | two runs in all |
| Scenarios.RetryOnceIfAfterSuccess | src/FaultlessExecutionTests/Extensions/ActionExecutionResultExtensionTests.cs:120-132 | no question asked and one run |
| Scenarios.RetryOnceIfRefused | src/FaultlessExecutionTests/Extensions/ActionExecutionResultExtensionTests.cs:135-146 | one question, one run, and the original result back |
| Scenarios.RetryUntilExhausted | src/FaultlessExecutionTests/Extensions/ActionExecutionResultExtensionTests.cs:164-176 | N questions, N+1 runs, the original result back, and the condition shown only the original result |
| Scenarios.RetryUntilSuccess | src/FaultlessExecutionTests/Extensions/ActionExecutionResultExtensionTests.cs:179-198 | k failed retries below the bound: k+1 questions, k+2 runs, success |
| Scenarios.FuncRetryUntilSuccess | src/FaultlessExecutionTests/Extensions/FuncExecutionResultExtensionsTests.cs:121-142 | the same for a function, with the value of the run that returned |
| Scenarios.AsyncRetryOnceAfterFailure | src/FaultlessExecutionTests/Extensions/AsyncActionExecutionResultExtensionTests.cs:50-61 | two runs of the asynchronous body in all |
| Scenarios.AsyncFuncRetryUntilSuccess | src/FaultlessExecutionTests/Extensions/AsyncFuncExecutionResultExtensionTests.cs:128-150 | k failed retries below the bound: k+1 questions, k+2 runs, success |
| Scenarios.ChainAfterSuccessfulRetry | src/FaultlessExecutionTests/Extensions/ActionExecutionResultExtensionTests.cs:50-76 | fail once then succeed: only the success handler runs, after two runs |
| Scenarios.ChainAfterFailedRetry | src/FaultlessExecutionTests/Extensions/ActionExecutionResultExtensionTests.cs:79-104 | always failing: only the exception handler runs, after two runs |
| Scenarios.FlagSetByHand | src/FaultlessExecutionTests/Extensions/ExecutionResultExtensionTests.cs:24-89 | a result whose flag is set by hand: unsuccessful, `OnException` runs, `OnSuccess` does not, and success iff no exception fails to hold; successful, the reverse |
| Scenarios.DefaultConfigurationShared | src/FaultlessExecution.AspNetCore.Mvc/ActionResultFaultlessExecutionService.cs:83-96 | two accesses return the same instance, which has the default builder |
| Scenarios.MvcSuccessLeavesDefault | src/FaultlessExecution.AspNetCore.Mvc/ActionResultFaultlessExecutionService.cs:21-27 | with no configuration and no shared default, a success answers Ok with the returned value and leaves the shared default uncreated |
| Scenarios.MvcDefaultCreatedOnFailure | src/FaultlessExecution.AspNetCore.Mvc/ActionResultFaultlessExecutionService.cs:65-94 | after a success, the first failure creates the shared default and answers a bad request with the exception's message, and two later failures through another service answer the same with the same default |
| Scenarios.MvcResponses | src/FaultlessExecution.AspNetCore.Mvc/ActionResultFaultlessExecutionService.cs:17-31 | a failure answers a bad request with the exception's message and one information log, the executor logs nothing, and a null value answers NotFound once rewritten |

## Left out

- Asynchronous scheduling: `async`/`await`, `Task.Run` and the tasks themselves are not modelled. Every task is awaited to completion. An asynchronous delegate is one that yields its outcome when awaited, so a synchronous throw before the task exists is the same as a faulted task. A retry extension's `task` argument is the awaited result.
- Logger arguments: the `params object[] args` handed to `ILogger` are not modelled, and neither is the log formatting. So the odd forwarding of `message, args` twice at src/FaultlessExecution.AspNetCore.Mvc/ActionResultFaultlessExecutionService.cs:38 does not appear. That forwarding only changes what a logger would be given, and this service has turned the wrapped executor's logging off.
- The MVC service's own logger: it is taken to be non-null. A null logger makes the source throw on the failure branch, and the model does not represent that.
- The MVC service's default message `"Error caught by Faultless"`: the model's methods take the message as a parameter, as the executor's do.
- .NET exceptions: an exception is reduced to a value with a message. Exception types, stack traces and `ex?.Message` on a null exception (the executor only ever sees real exceptions) are not modelled, and a null message is the same as an empty one.
- Closures: a closure is an object with a script of outcomes and a run counter. Delegate identity is object identity.
- `default(T)`: function return values range over one value domain whose `Null` stands for `default(T)`. Value types with other defaults are not modelled.
- Overridable hooks: only the firing of `OnException` and `OnResult`, and what they are given, is recorded. A subclass override's own effects, including an exception thrown from a hook, are not modelled.
- `ILogger` as a type: a logger is only "present or absent"; its output is the recorded event.
- Interfaces: `IFaultlessExecutionService` and `IActionResultFaultlessExecutionService` are not modelled as types. The executor type is the concrete `FaultlessExecutionService` throughout.
- Bad-request builders: the model's builder is shown only the result's flag and exception. In the source it receives the `ExecutionResult` itself, which also exposes `ExecutedBy` and, after a downcast, `ReturnValue` and `ExecutedCode`; a builder that reads those is not modelled.
- The static `_defaultConfiguration`: it is an explicit `ConfigurationDefaults` object shared by the services that use it. Its field is a public `var` in the model, while the source keeps it private behind a get-only property; only `DefaultConfiguration` assigns it, and outside code in the source can change the default's builder but never replace the default.
- Handlers and retry conditions: the branch combinators' handlers and the retry condition have no effects of their own in the model, and they never throw. In the source a handler may assign the result's public fields (the `Action<TExecutionResult>` overloads hand it the result itself), so `.OnException(r => r.WasSuccessful = true).OnSuccess(h)` runs both handlers. An exception thrown by a handler or by `retryIfCode` escapes `OnException`, `OnSuccess` and `RetryIf` uncaught. `ExactlyOneHandler` holds for handlers that leave the result's flag alone.
- Null arguments: delegates, retry conditions and executors are non-null references in the model. In the source `TryExecute(null)` catches the `NullReferenceException` of `code.Invoke()` (src/FaultlessExecution/FaultlessExecutionService.cs:23, caught at :27) and returns a failed result whose `ExecutedCode` is null; on a failed result with at least one retry allowed, a null `retryIfCode` or a null `ExecutedBy` makes `RetryIf` throw (src/FaultlessExecution/Extensions/ActionExecutionResultExtensions.cs:31 and :33, and likewise in the other three shapes); and a null executor makes the MVC service's constructor throw (src/FaultlessExecution.AspNetCore.Mvc/ActionResultFaultlessExecutionService.cs:17). None of these paths is modelled.
- Null responses: `Response` has no null. In the source `OnOkNullReturnNotFound(null)` returns null, and awaiting a null task throws; neither case is modelled.
- `OnExceptionAsync` and `OnSuccessAsync`: they are used by the tests but defined in no file of this model.
- The WPF sample application, its demo services, and the unit-test scaffolding (mocks, assertions, `TestExecutionResult`): these are not part of this model.
- The non-generic `ICloneable.Clone`: it is the same as `Clone`.

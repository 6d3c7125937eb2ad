/** FaultlessExecutionService.cs: the executor, the single place where caller code is invoked and
    where an exception it throws is turned into a failed result instead of propagating. */
module FaultlessExecution {
  import opened Common
  import opened Delegates
  import opened ExecutionResults
  import opened ActionExecutionResults
  import opened FuncExecutionResults
  import opened AsyncActionExecutionResults
  import opened AsyncFuncExecutionResults

  /** The template used when a caller gives no message of its own. */
  const DefaultMessagePrefix: string := "Error caught by Faultless: "

  /** The message handed to the logger for `error`: the caller's message, unless it is null or
      empty (both written "" here), in which case the default template followed by the
      exception's message. */
  function LogMessage(message: string, error: Error): (m: string)
    ensures m != ""
    ensures message != "" ==> m == message
    ensures message == "" ==> |m| == |DefaultMessagePrefix| + |error.message|
                              && m[..|DefaultMessagePrefix|] == DefaultMessagePrefix
                              && m[|DefaultMessagePrefix|..] == error.message
  {
    if message == "" then DefaultMessagePrefix + error.message else message
  }

  /** What an executor's collaborators observe: a call to the logger, a call of the
      `OnException` hook and a call of the `OnResult` hook. */
  datatype Event =
    | Logged(error: Error, message: string)
    | ExceptionHandled(error: Error)
    | ResultReported

  /** The events `HandleException` produces for `error`; `logs` is whether the executor logs. */
  function FailureEvents(error: Error, logs: bool, message: string): seq<Event>
  {
    (if logs then [Logged(error, LogMessage(message, error))] else []) + [ExceptionHandled(error)]
  }

  /** The events one `TryExecute*` call produces when the code's outcome is `o`: the failure
      events if it threw, then the `OnResult` hook. */
  function AttemptEvents<T>(o: Outcome<T>, logs: bool, message: string): seq<Event>
  {
    (if o.Threw? then FailureEvents(o.error, logs, message) else []) + [ResultReported]
  }

  /** A caught exception is logged, with the message `LogMessage` picks, before `OnException`
      fires, and only when the executor logs; `OnException` fires exactly once. */
  lemma FailureEventsOrder(error: Error, logs: bool, message: string)
    ensures var evs := FailureEvents(error, logs, message);
            && |evs| == (if logs then 2 else 1)
            && evs[|evs| - 1] == ExceptionHandled(error)
            && (logs ==> evs[0] == Logged(error, LogMessage(message, error)))
  {
  }

  /** Whatever the outcome, one `TryExecute*` call fires `OnResult` exactly once, and last; it
      fires `OnException` exactly once when the code threw, and never when it returned. */
  lemma AttemptEventsOrder<T>(o: Outcome<T>, logs: bool, message: string)
    ensures var evs := AttemptEvents(o, logs, message);
            && evs[|evs| - 1] == ResultReported
            && multiset(evs)[ResultReported] == 1
            && (o.Returned? ==> evs == [ResultReported])
            && (o.Threw? ==> evs[..|evs| - 1] == FailureEvents(o.error, logs, message)
                             && multiset(evs)[ExceptionHandled(o.error)] == 1)
  {
  }

  class FaultlessExecutionService {
    /** Whether the injected `ILogger` is non-null. */
    const hasLogger: bool
    var logErrors: bool
    /** Every logger call and hook call so far, in order. */
    var events: seq<Event>
    /** The results passed to `OnResult`, in order. */
    var reportedResults: seq<object>

    constructor (hasLogger: bool)
      ensures this.hasLogger == hasLogger
      ensures logErrors
      ensures events == [] && reportedResults == []
    {
      this.hasLogger := hasLogger;
      logErrors := true;
      events := [];
      reportedResults := [];
    }

    /** Whether a caught exception goes to the logger. */
    predicate Logs()
      reads this
    {
      logErrors && hasLogger
    }

    method TryExecuteFunc(code: Code<Value>, message: string) returns (r: FuncExecutionResult<FaultlessExecutionService>)
      modifies this, code
      ensures code.runs == old(code.runs) + 1
      ensures fresh(r) && r.executedBy == this && r.executedCode == code
      ensures var o := code.script(old(code.runs));
              && r.wasSuccessful == o.Returned?
              && r.exception == o.Thrown()
              && r.returnValue == (if o.Returned? then o.value else Null)
              && events == old(events) + AttemptEvents(o, old(Logs()), message)
      ensures r.SucceededIffNoException()
      ensures reportedResults == old(reportedResults) + [r]
      ensures logErrors == old(logErrors)
    {
      var o := code.Invoke();
      if o.Returned? {
        r := FuncExecutionResults.SuccessResult(this, code, o.value);
      } else {
        HandleException(o.error, message);
        r := FuncExecutionResults.FailedResult(this, code, Some(o.error));
      }
      OnResult(r);
    }

    method TryExecuteAsyncFunc(code: AsyncCode<Value>, message: string) returns (r: AsyncFuncExecutionResult<FaultlessExecutionService>)
      modifies this, code.body
      ensures code.body.runs == old(code.body.runs) + 1
      ensures fresh(r) && r.executedBy == this && r.executedCode == code
      ensures var o := code.body.script(old(code.body.runs));
              && r.wasSuccessful == o.Returned?
              && r.exception == o.Thrown()
              && r.returnValue == (if o.Returned? then o.value else Null)
              && events == old(events) + AttemptEvents(o, old(Logs()), message)
      ensures r.SucceededIffNoException()
      ensures reportedResults == old(reportedResults) + [r]
      ensures logErrors == old(logErrors)
    {
      var o := code.InvokeAndAwait();
      if o.Returned? {
        r := AsyncFuncExecutionResults.SuccessResult(this, code, o.value);
      } else {
        HandleException(o.error, message);
        r := AsyncFuncExecutionResults.FailedResult(this, code, Some(o.error));
      }
      OnResult(r);
    }

    /** Runs a synchronous function through `TryExecuteAsyncFunc`, wrapped in a fresh
        asynchronous delegate: the result's `ExecutedCode` is that wrapper, not `code`. */
    method TryExecuteSyncAsAsyncFunc(code: Code<Value>, message: string) returns (r: AsyncFuncExecutionResult<FaultlessExecutionService>)
      modifies this, code
      ensures code.runs == old(code.runs) + 1
      ensures fresh(r) && r.executedBy == this
      ensures fresh(r.executedCode) && r.executedCode.body == code
      ensures var o := code.script(old(code.runs));
              && r.wasSuccessful == o.Returned?
              && r.exception == o.Thrown()
              && r.returnValue == (if o.Returned? then o.value else Null)
              && events == old(events) + AttemptEvents(o, old(Logs()), message)
      ensures r.SucceededIffNoException()
      ensures reportedResults == old(reportedResults) + [r]
      ensures logErrors == old(logErrors)
    {
      var wrapper := new AsyncCode(code);
      r := TryExecuteAsyncFunc(wrapper, message);
    }

    method TryExecuteAction(code: Code<()>, message: string) returns (r: ActionExecutionResult<FaultlessExecutionService>)
      modifies this, code
      ensures code.runs == old(code.runs) + 1
      ensures fresh(r) && r.executedBy == this && r.executedCode == code
      ensures var o := code.script(old(code.runs));
              && r.wasSuccessful == o.Returned?
              && r.exception == o.Thrown()
              && events == old(events) + AttemptEvents(o, old(Logs()), message)
      ensures r.SucceededIffNoException()
      ensures reportedResults == old(reportedResults) + [r]
      ensures logErrors == old(logErrors)
    {
      var o := code.Invoke();
      if o.Returned? {
        r := ActionExecutionResults.SuccessResult(this, code);
      } else {
        HandleException(o.error, message);
        r := ActionExecutionResults.FailedResult(this, code, Some(o.error));
      }
      OnResult(r);
    }

    method TryExecuteAsyncAction(code: AsyncCode<()>, message: string) returns (r: AsyncActionExecutionResult<FaultlessExecutionService>)
      modifies this, code.body
      ensures code.body.runs == old(code.body.runs) + 1
      ensures fresh(r) && r.executedBy == this && r.executedCode == code
      ensures var o := code.body.script(old(code.body.runs));
              && r.wasSuccessful == o.Returned?
              && r.exception == o.Thrown()
              && events == old(events) + AttemptEvents(o, old(Logs()), message)
      ensures r.SucceededIffNoException()
      ensures reportedResults == old(reportedResults) + [r]
      ensures logErrors == old(logErrors)
    {
      var o := code.InvokeAndAwait();
      if o.Returned? {
        r := AsyncActionExecutionResults.SuccessResult(this, code);
      } else {
        HandleException(o.error, message);
        r := AsyncActionExecutionResults.FailedResult(this, code, Some(o.error));
      }
      OnResult(r);
    }

    /** Runs a synchronous action through `TryExecuteAsyncAction`, wrapped in a fresh
        asynchronous delegate: the result's `ExecutedCode` is that wrapper, not `code`. */
    method TryExecuteSyncAsAsyncAction(code: Code<()>, message: string) returns (r: AsyncActionExecutionResult<FaultlessExecutionService>)
      modifies this, code
      ensures code.runs == old(code.runs) + 1
      ensures fresh(r) && r.executedBy == this
      ensures fresh(r.executedCode) && r.executedCode.body == code
      ensures var o := code.script(old(code.runs));
              && r.wasSuccessful == o.Returned?
              && r.exception == o.Thrown()
              && events == old(events) + AttemptEvents(o, old(Logs()), message)
      ensures r.SucceededIffNoException()
      ensures reportedResults == old(reportedResults) + [r]
      ensures logErrors == old(logErrors)
    {
      var wrapper := new AsyncCode(code);
      r := TryExecuteAsyncAction(wrapper, message);
    }

    /** Logs `error` when logging is on and a logger exists, then fires `OnException` regardless. */
    method HandleException(error: Error, message: string)
      modifies this
      ensures events == old(events) + FailureEvents(error, old(Logs()), message)
      ensures logErrors == old(logErrors) && reportedResults == old(reportedResults)
    {
      if logErrors && hasLogger {
        var m := message;
        if m == "" {
          m := DefaultMessagePrefix + error.message;
        }
        LogError(error, m);
      }
      OnException(error);
    }

    /** `ILogger.LogError`: only the call and its exception and message are modelled. */
    method LogError(error: Error, message: string)
      modifies this
      ensures events == old(events) + [Logged(error, message)]
      ensures logErrors == old(logErrors) && reportedResults == old(reportedResults)
    {
      events := events + [Logged(error, message)];
    }

    /** The overridable `OnException` hook: the model records that it fired, and with what. */
    method OnException(error: Error)
      modifies this
      ensures events == old(events) + [ExceptionHandled(error)]
      ensures logErrors == old(logErrors) && reportedResults == old(reportedResults)
    {
      events := events + [ExceptionHandled(error)];
    }

    /** The overridable `OnResult` hook (one overload per shape in the source). */
    method OnResult(result: object)
      modifies this
      ensures events == old(events) + [ResultReported]
      ensures reportedResults == old(reportedResults) + [result]
      ensures logErrors == old(logErrors)
    {
      events := events + [ResultReported];
      reportedResults := reportedResults + [result];
    }
  }
}

/** ActionExecutionResultExtensions.cs: retrying a failed synchronous action. */
module ActionExecutionResultExtensions {
  import opened Common
  import opened Delegates
  import opened ExecutionResults
  import opened ActionExecutionResults
  import opened FaultlessExecution
  import opened RetrySpec

  type Result = ActionExecutionResult<FaultlessExecutionService>
  type MaybeResult = ExecutionResult?<FaultlessExecutionService, Code<()>, ()>

  /** `Retry(result, 1)`. */
  method RetryOnce(result: MaybeResult) returns (r: MaybeResult)
    modifies if result == null then {} else {result.executedBy, result.executedCode}
    ensures result == null || result.wasSuccessful ==>
              r == result && (result != null ==> unchanged(result.executedBy, result.executedCode))
    ensures result != null && !result.wasSuccessful ==> SyncRetried(result, r, AlwaysTrue, 0, 1)
  {
    r := Retry(result, 1);
  }

  /** `RetryIf` under the condition `(a) => true`. */
  method Retry(result: MaybeResult, numberOfRetries: int) returns (r: MaybeResult)
    modifies if result == null then {} else {result.executedBy, result.executedCode}
    ensures result == null || result.wasSuccessful ==>
              r == result && (result != null ==> unchanged(result.executedBy, result.executedCode))
    ensures result != null && !result.wasSuccessful ==>
              SyncRetried(result, r, AlwaysTrue, 0, Attempts(numberOfRetries))
  {
    var always := new RetryCondition<Result>(AlwaysTrue);
    r := RetryIf(result, always, numberOfRetries);
  }

  /** `RetryIf(result, retryIfCode, 1)`. */
  method RetryOnceIf(result: MaybeResult, retryIfCode: RetryCondition<Result>) returns (r: MaybeResult)
    modifies retryIfCode
    modifies if result == null then {} else {result.executedBy, result.executedCode}
    ensures result == null || result.wasSuccessful ==>
              && r == result && retryIfCode.arguments == old(retryIfCode.arguments)
              && (result != null ==> unchanged(result.executedBy, result.executedCode))
    ensures result != null && !result.wasSuccessful ==>
              var calls := old(|retryIfCode.arguments|);
              && SyncRetried(result, r, retryIfCode.answers, calls, 1)
              && retryIfCode.arguments == old(retryIfCode.arguments)
                   + Repeat(result, old(SyncRun(result, retryIfCode.answers, calls, 1)).calls - calls)
  {
    r := RetryIf(result, retryIfCode, 1);
  }

  /** Resubmits a failed result's code to its executor while `retryIfCode`, always shown the
      original result, approves, at most `numberOfRetries` times, and stops at the first retry
      that succeeds. A null or successful result is returned untouched. */
  method RetryIf(result: MaybeResult, retryIfCode: RetryCondition<Result>, numberOfRetries: int)
    returns (r: MaybeResult)
    modifies retryIfCode
    modifies if result == null then {} else {result.executedBy, result.executedCode}
    ensures result == null || result.wasSuccessful ==>
              && r == result && retryIfCode.arguments == old(retryIfCode.arguments)
              && (result != null ==> unchanged(result.executedBy, result.executedCode))
    ensures result != null && !result.wasSuccessful ==>
              var calls := old(|retryIfCode.arguments|);
              var attempts := Attempts(numberOfRetries);
              && SyncRetried(result, r, retryIfCode.answers, calls, attempts)
              && retryIfCode.arguments == old(retryIfCode.arguments)
                   + Repeat(result, old(SyncRun(result, retryIfCode.answers, calls, attempts)).calls - calls)
  {
    if result == null || result.wasSuccessful {
      return result;
    }
    r := RetryFailed(result, retryIfCode, numberOfRetries);
  }

  /** The loop of `RetryIf`, on a failed result. */
  method RetryFailed(result: Result, retryIfCode: RetryCondition<Result>, numberOfRetries: int)
    returns (r: MaybeResult)
    requires !result.wasSuccessful
    modifies retryIfCode, result.executedBy, result.executedCode
    ensures var calls := old(|retryIfCode.arguments|);
            var attempts := Attempts(numberOfRetries);
            && SyncRetried(result, r, retryIfCode.answers, calls, attempts)
            && retryIfCode.arguments == old(retryIfCode.arguments)
                 + Repeat(result, old(SyncRun(result, retryIfCode.answers, calls, attempts)).calls - calls)
  {
    ghost var spec := SyncRun(result, retryIfCode.answers, |retryIfCode.arguments|, Attempts(numberOfRetries));
    r := RunRetries(result, retryIfCode, numberOfRetries, spec);
  }

  /** The loop itself, proved against `spec`, the way `RetryLoop` says it runs from the current
      state: it ends in the counters and the events of `spec`, with one result reported per run,
      returning the successful retry `spec` stops at or, when it runs out, `result`. */
  method RunRetries(result: Result, retryIfCode: RetryCondition<Result>, numberOfRetries: int,
                    ghost spec: RetryRun<()>)
    returns (r: MaybeResult)
    requires spec == RetryLoop(retryIfCode.answers, result.executedCode.script, result.executedBy.Logs(),
                               Attempts(numberOfRetries), |retryIfCode.arguments|,
                               result.executedCode.runs, result.executedBy.events)
    modifies retryIfCode, result.executedBy, result.executedCode
    ensures retryIfCode.arguments == old(retryIfCode.arguments) + Repeat(result, spec.calls - old(|retryIfCode.arguments|))
    ensures var service, code := result.executedBy, result.executedCode;
            && code.runs == spec.runs && service.events == spec.events
            && service.logErrors == old(service.logErrors)
            && old(service.reportedResults) <= service.reportedResults
            && |service.reportedResults| == |old(service.reportedResults)| + (code.runs - old(code.runs))
            && (spec.Exhausted? ==> r == result)
            && (spec.Succeeded? ==>
                  && r != null && fresh(r)
                  && r.executedBy == service && r.executedCode == result.executedCode
                  && r.wasSuccessful && r.exception == None && r.returnValue == spec.value
                  && service.reportedResults[|service.reportedResults| - 1] == r)
  {
    ghost var attempts := Attempts(numberOfRetries);
    ghost var arguments, runs := retryIfCode.arguments, result.executedCode.runs;
    ghost var reported, logErrors := result.executedBy.reportedResults, result.executedBy.logErrors;
    var count: nat := 0;
    while count < numberOfRetries
      invariant Looping(result, retryIfCode, spec, attempts, arguments, runs, reported, logErrors, count)
    {
      var retried := Attempt(result, retryIfCode, spec, attempts, arguments, runs, reported, logErrors, count);
      if retried != null {
        return retried;
      }
      count := count + 1;
    }
    assert spec == Exhausted(|arguments| + count, result.executedCode.runs, result.executedBy.events);
    return result;
  }

  /** Where `RetryIf`'s loop stands after `count` iterations that did not succeed, out of
      `attempts`, from a start where the condition had been shown `arguments`, the code had run
      `runs` times and the executor had reported `reported`: the condition has been shown the
      original result once per iteration, the executor has reported one result per run, and
      the rest of the loop, as `RetryLoop` runs it from here, is still `spec`. */
  ghost predicate Looping(result: Result, retryIfCode: RetryCondition<Result>, spec: RetryRun<()>, attempts: nat,
                          arguments: seq<Result>, runs: nat, reported: seq<object>, logErrors: bool, count: nat)
    reads retryIfCode, result.executedBy, result.executedCode
  {
    var service, code := result.executedBy, result.executedCode;
    && count <= attempts
    && retryIfCode.arguments == arguments + Repeat(result, count)
    && service.logErrors == logErrors
    && spec == RetryLoop(retryIfCode.answers, code.script, service.Logs(), attempts - count, |arguments| + count,
                         code.runs, service.events)
    && reported <= service.reportedResults
    && |service.reportedResults| == |reported| + (code.runs - runs)
  }

  /** One iteration of `RetryIf`'s loop, from the point `Looping` describes: the condition is
      asked about `result`, and on approval its code is resubmitted; `retried` is the new result
      when that retry succeeded, and null otherwise, when the loop goes on from the next point. */
  method Attempt(result: Result, retryIfCode: RetryCondition<Result>, ghost spec: RetryRun<()>, ghost attempts: nat,
                 ghost arguments: seq<Result>, ghost runs: nat, ghost reported: seq<object>, ghost logErrors: bool,
                 ghost count: nat)
    returns (retried: MaybeResult)
    requires count < attempts
    requires Looping(result, retryIfCode, spec, attempts, arguments, runs, reported, logErrors, count)
    modifies retryIfCode, result.executedBy, result.executedCode
    ensures retried == null ==> Looping(result, retryIfCode, spec, attempts, arguments, runs, reported, logErrors, count + 1)
    ensures retried != null ==>
              var service, code := result.executedBy, result.executedCode;
              && spec == Succeeded((), |arguments| + count + 1, code.runs, service.events)
              && retryIfCode.arguments == arguments + Repeat(result, count + 1)
              && service.logErrors == logErrors
              && reported <= service.reportedResults
              && |service.reportedResults| == |reported| + (code.runs - runs)
              && fresh(retried) && retried.executedBy == service && retried.executedCode == result.executedCode
              && retried.wasSuccessful && retried.exception == None
              && service.reportedResults[|service.reportedResults| - 1] == retried
  {
    var service, code := result.executedBy, result.executedCode;
    ghost var logs, before, events := service.Logs(), code.runs, service.events;
    assert spec == RetryLoop(retryIfCode.answers, code.script, logs, attempts - count, |arguments| + count, before, events);
    var retry := retryIfCode.Invoke(result);
    assert retryIfCode.arguments == arguments + Repeat(result, count + 1);
    retried := null;
    if retry {
      var newResult := service.TryExecuteAction(result.executedCode, RetryMessage);
      assert service.events == events + AttemptEvents(code.script(before), logs, RetryMessage);
      if newResult.wasSuccessful {
        assert code.script(before).Returned?;
        ghost var unit: () := code.script(before).value;
        assert unit == ();
        retried := newResult;
      } else {
        assert code.script(before).Threw?;
      }
    }
  }
}

/** The reference semantics of `RetryIf`, shared by its four copies (one per shape, in the four
    *ExecutionResultExtensions.cs files), and the facts the library's tests pin down about it. */
module RetrySpec {
  import opened Common
  import opened Delegates
  import opened ExecutionResults
  import opened FaultlessExecution

  /** How many times the loop `while (count < numberOfRetries)` can go round: none for a
      negative count. */
  function Attempts(numberOfRetries: int): (n: nat)
    ensures numberOfRetries <= 0 ==> n == 0
    ensures numberOfRetries > 0 ==> n == numberOfRetries
  {
    if numberOfRetries < 0 then 0 else numberOfRetries
  }

  /** The condition `(a) => true` that `Retry` and `RetryOnce` pass to `RetryIf`. */
  function AlwaysTrue(call: nat): bool
  {
    true
  }

  /** A resubmission goes through `TryExecute`/`TryExecuteAsync` with no message of its own. */
  const RetryMessage: string := ""

  /** How a retry loop ended, with the condition's and the code's counters and the executor's
      events at that point: the first retry that succeeded (with its return value), or the loop
      running out of attempts. */
  datatype RetryRun<T> =
    | Succeeded(value: T, calls: nat, runs: nat, events: seq<Event>)
    | Exhausted(calls: nat, runs: nat, events: seq<Event>)

  /** The loop of `RetryIf` with `remaining` iterations left, the condition at call number
      `calls`, the code at invocation number `runs`, and `events` recorded so far; `logs` is
      whether the executor logs. Each iteration asks the condition once; when it answers true,
      the code runs once more, through `TryExecute`/`TryExecuteAsync` with no message, and a
      success ends the loop. */
  function RetryLoop<T>(answers: nat -> bool, script: nat -> Outcome<T>, logs: bool,
                        remaining: nat, calls: nat, runs: nat, events: seq<Event>): (run: RetryRun<T>)
    ensures calls <= run.calls <= calls + remaining
    ensures runs <= run.runs && (run.Succeeded? ==> runs < run.runs)
    decreases remaining
  {
    if remaining == 0 then
      Exhausted(calls, runs, events)
    else if !answers(calls) then
      RetryLoop(answers, script, logs, remaining - 1, calls + 1, runs, events)
    else
      match script(runs)
      case Returned(v) =>
        Succeeded(v, calls + 1, runs + 1, events + AttemptEvents(script(runs), logs, RetryMessage))
      case Threw(_) =>
        RetryLoop(answers, script, logs, remaining - 1, calls + 1, runs + 1,
                  events + AttemptEvents(script(runs), logs, RetryMessage))
  }

  /** The code runs at most once per question asked of the condition, and the events recorded
      only grow. */
  lemma {:induction false} RunsWithinCalls<T>(answers: nat -> bool, script: nat -> Outcome<T>, logs: bool,
                                              remaining: nat, calls: nat, runs: nat, events: seq<Event>)
    ensures var run := RetryLoop(answers, script, logs, remaining, calls, runs, events);
            run.runs - runs <= run.calls - calls && events <= run.events
    decreases remaining
  {
    if remaining > 0 {
      if !answers(calls) {
        RunsWithinCalls(answers, script, logs, remaining - 1, calls + 1, runs, events);
      } else if script(runs).Threw? {
        RunsWithinCalls(answers, script, logs, remaining - 1, calls + 1, runs + 1,
                        events + AttemptEvents(script(runs), logs, RetryMessage));
      }
    }
  }

  /** A loop that runs out of attempts asked the condition on every iteration, and every run of
      the code it made threw. */
  lemma {:induction false} ExhaustedAllFailed<T>(answers: nat -> bool, script: nat -> Outcome<T>, logs: bool,
                                                 remaining: nat, calls: nat, runs: nat, events: seq<Event>)
    ensures var run := RetryLoop(answers, script, logs, remaining, calls, runs, events);
            run.Exhausted? ==> run.calls == calls + remaining
                               && forall k :: runs <= k < run.runs ==> script(k).Threw?
    decreases remaining
  {
    if remaining > 0 {
      if !answers(calls) {
        ExhaustedAllFailed(answers, script, logs, remaining - 1, calls + 1, runs, events);
      } else if script(runs).Threw? {
        ExhaustedAllFailed(answers, script, logs, remaining - 1, calls + 1, runs + 1,
                           events + AttemptEvents(script(runs), logs, RetryMessage));
      }
    }
  }

  /** A loop that succeeds stops at the first run that returned: that run's value is the
      result's, and every earlier run threw. */
  lemma {:induction false} SucceededAtFirstSuccess<T>(answers: nat -> bool, script: nat -> Outcome<T>, logs: bool,
                                                      remaining: nat, calls: nat, runs: nat, events: seq<Event>)
    ensures var run := RetryLoop(answers, script, logs, remaining, calls, runs, events);
            run.Succeeded? ==> script(run.runs - 1) == Returned(run.value)
                               && forall k :: runs <= k < run.runs - 1 ==> script(k).Threw?
    decreases remaining
  {
    if remaining > 0 {
      if !answers(calls) {
        SucceededAtFirstSuccess(answers, script, logs, remaining - 1, calls + 1, runs, events);
      } else if script(runs).Threw? {
        SucceededAtFirstSuccess(answers, script, logs, remaining - 1, calls + 1, runs + 1,
                                events + AttemptEvents(script(runs), logs, RetryMessage));
      }
    }
  }

  /** A condition that always answers true over code that always fails: the condition is asked
      on every iteration and the code runs once per iteration, and nothing succeeds. */
  lemma {:induction false} AlwaysFailing<T>(answers: nat -> bool, script: nat -> Outcome<T>, logs: bool,
                                            remaining: nat, calls: nat, runs: nat, events: seq<Event>)
    requires forall c :: calls <= c < calls + remaining ==> answers(c)
    requires forall k :: runs <= k < runs + remaining ==> script(k).Threw?
    ensures var run := RetryLoop(answers, script, logs, remaining, calls, runs, events);
            run.Exhausted? && run.calls == calls + remaining && run.runs == runs + remaining
    decreases remaining
  {
    if remaining > 0 {
      assert answers(calls) && script(runs).Threw?;
      AlwaysFailing(answers, script, logs, remaining - 1, calls + 1, runs + 1,
                    events + AttemptEvents(script(runs), logs, RetryMessage));
    }
  }

  /** A condition that always answers false: asked on every iteration, it never lets the code
      run again, and the executor records nothing. */
  lemma {:induction false} NeverApproved<T>(answers: nat -> bool, script: nat -> Outcome<T>, logs: bool,
                                            remaining: nat, calls: nat, runs: nat, events: seq<Event>)
    requires forall c :: calls <= c < calls + remaining ==> !answers(c)
    ensures RetryLoop(answers, script, logs, remaining, calls, runs, events) == Exhausted(calls + remaining, runs, events)
    decreases remaining
  {
    if remaining > 0 {
      assert !answers(calls);
      NeverApproved(answers, script, logs, remaining - 1, calls + 1, runs, events);
    }
  }

  /** Code that fails `failures` more times and then succeeds, within the bound, under a condition
      that answers true: the loop stops at the first success, after `failures + 1` questions and
      `failures + 1` runs, with that run's return value. */
  lemma {:induction false} FailuresThenSuccess<T>(answers: nat -> bool, script: nat -> Outcome<T>, logs: bool,
                                                  remaining: nat, calls: nat, runs: nat, events: seq<Event>,
                                                  failures: nat, value: T)
    requires failures < remaining
    requires forall c :: calls <= c <= calls + failures ==> answers(c)
    requires forall k :: runs <= k < runs + failures ==> script(k).Threw?
    requires script(runs + failures) == Returned(value)
    ensures var run := RetryLoop(answers, script, logs, remaining, calls, runs, events);
            run.Succeeded? && run.value == value
            && run.calls == calls + failures + 1 && run.runs == runs + failures + 1
    decreases failures
  {
    assert answers(calls);
    if failures > 0 {
      assert script(runs).Threw?;
      FailuresThenSuccess(answers, script, logs, remaining - 1, calls + 1, runs + 1,
                          events + AttemptEvents(script(runs), logs, RetryMessage), failures - 1, value);
    }
  }

  /** The loop as it would run on `result`, from the current state of its executor and its code. */
  ghost function SyncRun<T>(result: ExecutionResult<FaultlessExecutionService, Code<T>, T>,
                            answers: nat -> bool, calls: nat, attempts: nat): RetryRun<T>
    reads result.executedBy, result.executedCode
  {
    RetryLoop(answers, result.executedCode.script, result.executedBy.Logs(), attempts, calls,
              result.executedCode.runs, result.executedBy.events)
  }

  /** The new state after a retry loop on a failed synchronous `result`: the code's counter and
      the executor's events are those of `SyncRun`, one result was reported per run, and the loop returns either the first successful retry (fresh, with the same
      executor and code) or, when no retry succeeded, the original `result`. */
  twostate predicate SyncRetried<T>(result: ExecutionResult<FaultlessExecutionService, Code<T>, T>,
                                    new r: ExecutionResult?<FaultlessExecutionService, Code<T>, T>,
                                    answers: nat -> bool, calls: nat, attempts: nat)
    reads result.executedBy, result.executedCode, r
  {
    var service, code := result.executedBy, result.executedCode;
    var run := old(SyncRun(result, answers, calls, attempts));
    && code.runs == run.runs
    && service.events == run.events
    && service.logErrors == old(service.logErrors)
    && old(service.reportedResults) <= service.reportedResults
    && |service.reportedResults| == |old(service.reportedResults)| + (run.runs - old(code.runs))
    && (run.Exhausted? ==> r == result)
    && (run.Succeeded? ==>
          && r != null && fresh(r)
          && r.executedBy == service && r.executedCode == code
          && r.wasSuccessful && r.exception == None && r.returnValue == run.value
          && service.reportedResults[|service.reportedResults| - 1] == r)
  }

  /** The loop as it would run on an asynchronous `result`, whose delegate runs its body. */
  ghost function AsyncRun<T>(result: ExecutionResult<FaultlessExecutionService, AsyncCode<T>, T>,
                             answers: nat -> bool, calls: nat, attempts: nat): RetryRun<T>
    reads result.executedBy, result.executedCode.body
  {
    RetryLoop(answers, result.executedCode.body.script, result.executedBy.Logs(), attempts, calls,
              result.executedCode.body.runs, result.executedBy.events)
  }

  /** As `SyncRetried`, for the asynchronous shapes. */
  twostate predicate AsyncRetried<T>(result: ExecutionResult<FaultlessExecutionService, AsyncCode<T>, T>,
                                     new r: ExecutionResult?<FaultlessExecutionService, AsyncCode<T>, T>,
                                     answers: nat -> bool, calls: nat, attempts: nat)
    reads result.executedBy, result.executedCode.body, r
  {
    var service, code := result.executedBy, result.executedCode.body;
    var run := old(AsyncRun(result, answers, calls, attempts));
    && code.runs == run.runs
    && service.events == run.events
    && service.logErrors == old(service.logErrors)
    && old(service.reportedResults) <= service.reportedResults
    && |service.reportedResults| == |old(service.reportedResults)| + (run.runs - old(code.runs))
    && (run.Exhausted? ==> r == result)
    && (run.Succeeded? ==>
          && r != null && fresh(r)
          && r.executedBy == service && r.executedCode == result.executedCode
          && r.wasSuccessful && r.exception == None && r.returnValue == run.value
          && service.reportedResults[|service.reportedResults| - 1] == r)
  }
}

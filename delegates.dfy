/** The caller-supplied delegates the library runs: `Action` and `Func<T>` (synchronous),
    `Func<Task>` and `Func<Task<T>>` (asynchronous), and the `Func<TResult, bool>` retry
    condition. A closure is reduced to an object with a script of outcomes and a counter,
    which is what the library's tests observe of it. */
module Delegates {
  import opened Common

  /** A synchronous delegate: its k-th invocation (counting from 0) yields `script(k)`.
      `Code<()>` stands for `Action`, `Code<Value>` for `Func<T>`. */
  class Code<T> {
    const script: nat -> Outcome<T>
    /** How many times the delegate has been invoked. */
    var runs: nat

    constructor (script: nat -> Outcome<T>)
      ensures this.script == script && runs == 0
    {
      this.script := script;
      runs := 0;
    }

    method Invoke() returns (o: Outcome<T>)
      modifies this
      ensures runs == old(runs) + 1
      ensures o == script(old(runs))
    {
      o := script(runs);
      runs := runs + 1;
    }
  }

  /** An asynchronous delegate (`Func<Task>` for `AsyncCode<()>`, `Func<Task<T>>` for
      `AsyncCode<Value>`) whose task is awaited to completion: each invocation runs `body` once. */
  class AsyncCode<T> {
    const body: Code<T>

    constructor (body: Code<T>)
      ensures this.body == body
    {
      this.body := body;
    }

    /** Invokes the delegate and awaits its task. */
    method InvokeAndAwait() returns (o: Outcome<T>)
      modifies body
      ensures body.runs == old(body.runs) + 1
      ensures o == body.script(old(body.runs))
    {
      o := body.Invoke();
    }
  }

  /** A retry condition `Func<R, bool>`: its k-th call answers `answers(k)`. Every argument it is
      called with is recorded, so that callers can state what it was shown. */
  class RetryCondition<R> {
    const answers: nat -> bool
    var arguments: seq<R>

    constructor (answers: nat -> bool)
      ensures this.answers == answers && arguments == []
    {
      this.answers := answers;
      arguments := [];
    }

    method Invoke(argument: R) returns (b: bool)
      modifies this
      ensures arguments == old(arguments) + [argument]
      ensures b == answers(|old(arguments)|)
    {
      b := answers(|arguments|);
      arguments := arguments + [argument];
    }
  }
}

/** Values shared by every part of the model: what a delegate can return, what it can throw,
    and the outcome of one invocation. */
module Common {

  /** The conventional Some/None datatype, used for the references the library allows to be null. */
  datatype Option<+T> = None | Some(value: T)

  /** A captured exception, reduced to the one thing the library reads from it: its message. */
  datatype Error = Error(message: string)

  /** The objects a delegate returns or a response carries. `Null` is the null reference, which is
      also `default(T)` for the reference types the model stands in for. */
  datatype Value = Null | Str(s: string) | Obj(id: nat)

  /** What one invocation of a delegate did: returned a value, or threw. For the asynchronous
      delegates this is the outcome of invoking the delegate and awaiting its task, where a
      synchronous throw and a faulted task are the same `Threw`. */
  datatype Outcome<+T> = Returned(value: T) | Threw(error: Error) {

    /** The exception field a result built from this outcome carries. */
    function Thrown(): (e: Option<Error>)
      ensures e.Some? <==> Threw?
      ensures Threw? ==> e.value == error
    {
      if Threw? then Some(error) else None
    }
  }

  /** `n` copies of `x`, built one at a time at the end, as a log of repeated calls grows. */
  function Repeat<X>(x: X, n: nat): (s: seq<X>)
    ensures |s| == n
    ensures forall i :: 0 <= i < n ==> s[i] == x
  {
    if n == 0 then [] else Repeat(x, n - 1) + [x]
  }
}

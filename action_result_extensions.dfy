/** ActionResultExtensions.cs: rewriting an Ok response without a value into Not Found. */
module ActionResultExtensions {
  import opened Common
  import opened ActionResults

  /** `OnOkNullReturnNotFound`: an Ok response whose value is null becomes Not Found; every other
      response, an Ok with a value included, is returned as it is. The overload on a task awaits
      it and applies the same rule, so it is this function on the awaited response. */
  function OnOkNullReturnNotFound(response: Response): (rewritten: Response)
    ensures response.Ok? && response.value == Null ==> rewritten == NotFound
    ensures !(response.Ok? && response.value == Null) ==> rewritten == response
  {
    if !response.Ok? then response
    else if response.value == Null then NotFound
    else response
  }

  /** The rewrite never answers Ok without a value, and it changes nothing else: applying it a
      second time has no further effect. */
  lemma OnOkNullReturnNotFoundIdempotent(response: Response)
    ensures var once := OnOkNullReturnNotFound(response);
            && !(once.Ok? && once.value == Null)
            && OnOkNullReturnNotFound(once) == once
  {
  }

  /** Chained after the MVC service on a value-returning delegate: a success with a null value
      answers Not Found, a success with a value answers Ok with it, and a failure still answers
      the same bad request. */
  lemma NotFoundAfterFuncResponse(wasSuccessful: bool, returnValue: Value, body: Value)
    ensures var rewritten := OnOkNullReturnNotFound(FuncResponse(wasSuccessful, returnValue, body));
            && (wasSuccessful && returnValue == Null ==> rewritten == NotFound)
            && (wasSuccessful && returnValue != Null ==> rewritten == Ok(returnValue))
            && (!wasSuccessful ==> rewritten == BadRequest(body))
  {
  }

  /** An action's responses are never Ok, so the rewrite leaves them all alone. */
  lemma ActionResponseUntouched(wasSuccessful: bool, body: Value)
    ensures OnOkNullReturnNotFound(ActionResponse(wasSuccessful, body)) == ActionResponse(wasSuccessful, body)
  {
  }
}

/** ActionResultFaultlessExecutionService.cs: the ASP.NET Core MVC front of the executor, which
    turns an execution result into an HTTP response, and its configuration. */
module ActionResults {
  import opened Common
  import opened Delegates
  import opened FaultlessExecution

  /** The shape of an `IActionResult`: `OkObjectResult`, `NoContentResult`, `BadRequestObjectResult`,
      `NotFoundResult`, or any other result, told apart by an id. */
  datatype Response = Ok(value: Value) | NoContent | BadRequest(body: Value) | NotFound | Other(id: nat)

  /** What a bad-request builder is shown of an `ExecutionResult`: its flag and its exception. */
  datatype ResultView = ResultView(wasSuccessful: bool, exception: Option<Error>)

  /** A `Func<ExecutionResult, object>`; its argument is `None` for a null result. */
  type Builder = Option<ResultView> -> Value

  /** The builder of the default configuration, `result?.Exception?.Message`. */
  function DefaultBadRequestObject(result: Option<ResultView>): (body: Value)
    ensures body == Null <==> result.None? || result.value.exception.None?
    ensures body != Null ==> body == Str(result.value.exception.value.message)
  {
    match result
    case None => Null
    case Some(view) =>
      match view.exception
      case None => Null
      case Some(e) => Str(e.message)
  }

  /** `config?.BadRequestObjectBuilder?.Invoke(result)` for a non-null `config`: no builder
      gives a null body. */
  function BadRequestBody(builder: Option<Builder>, result: Option<ResultView>): (body: Value)
    ensures builder.None? ==> body == Null
    ensures builder.Some? ==> body == builder.value(result)
  {
    if builder.None? then Null else builder.value(result)
  }

  /** `ActionResultFaultlessExecutionServiceConfiguration`. */
  class Configuration {
    /** `BadRequestObjectBuilder`; `None` is a null delegate. */
    var badRequestObjectBuilder: Option<Builder>

    constructor ()
      ensures badRequestObjectBuilder.None?
    {
      badRequestObjectBuilder := None;
    }

    /** A new configuration with the same builder. */
    method Clone() returns (c: Configuration)
      ensures fresh(c) && c.badRequestObjectBuilder == badRequestObjectBuilder
    {
      c := new Configuration();
      c.badRequestObjectBuilder := badRequestObjectBuilder;
    }
  }

  /** The static `_defaultConfiguration` field and its `DefaultConfiguration` property, as an
      object that every service of a process shares. In the source the field is private behind
      a get-only property, so outside code can change the default's builder but never replace
      the default itself; only `DefaultConfiguration` assigns the field here. */
  class ConfigurationDefaults {
    var defaultConfiguration: Configuration?

    constructor ()
      ensures defaultConfiguration == null
    {
      defaultConfiguration := null;
    }

    /** The shared default configuration, created with the default builder on first access;
        every later access returns that same instance and creates nothing. */
    method DefaultConfiguration() returns (c: Configuration)
      modifies this
      ensures defaultConfiguration == c
      ensures old(defaultConfiguration) != null ==> c == old(defaultConfiguration)
      ensures old(defaultConfiguration) == null ==>
                fresh(c) && c.badRequestObjectBuilder == Some(DefaultBadRequestObject)
    {
      if defaultConfiguration == null {
        var config := new Configuration();
        config.badRequestObjectBuilder := Some(DefaultBadRequestObject);
        defaultConfiguration := config;
      }
      c := defaultConfiguration;
    }
  }

  /** The configuration `BuildBadRequestObject` uses: the service's own when it has one, the
      shared default otherwise, and a fresh default when the shared one is yet to be created. */
  function EffectiveBuilder(own: Configuration?, defaults: ConfigurationDefaults): (builder: Option<Builder>)
    reads own, defaults, defaults.defaultConfiguration
    ensures own != null ==> builder == own.badRequestObjectBuilder
    ensures own == null && defaults.defaultConfiguration != null ==>
              builder == defaults.defaultConfiguration.badRequestObjectBuilder
    ensures own == null && defaults.defaultConfiguration == null ==> builder == Some(DefaultBadRequestObject)
  {
    if own != null then own.badRequestObjectBuilder
    else if defaults.defaultConfiguration != null then defaults.defaultConfiguration.badRequestObjectBuilder
    else Some(DefaultBadRequestObject)
  }

  /** The response for a value-returning result: Ok with exactly its return value on success, a
      bad request with `body` otherwise. */
  function FuncResponse(wasSuccessful: bool, returnValue: Value, body: Value): (response: Response)
    ensures response.Ok? <==> wasSuccessful
    ensures wasSuccessful ==> response.value == returnValue
    ensures !wasSuccessful ==> response == BadRequest(body)
  {
    if wasSuccessful then Ok(returnValue) else BadRequest(body)
  }

  /** The response for an action result: no content on success, a bad request with `body`
      otherwise. */
  function ActionResponse(wasSuccessful: bool, body: Value): (response: Response)
    ensures response.NoContent? <==> wasSuccessful
    ensures !wasSuccessful ==> response == BadRequest(body)
  {
    if wasSuccessful then NoContent else BadRequest(body)
  }

  /** `ActionResultFaultlessExecutionService`, over the executor it wraps. */
  class ActionResultService {
    const executor: FaultlessExecutionService
    /** The process-wide default configuration. */
    const defaults: ConfigurationDefaults
    /** `Configuration`; `null` defers to the default. */
    var configuration: Configuration?
    /** How many times the service's own logger was told that a bad request is being sent. */
    var informationLogs: nat

    /** Turns the wrapped executor's own logging off: this service logs failures itself. */
    constructor (executor: FaultlessExecutionService, defaults: ConfigurationDefaults)
      modifies executor
      ensures this.executor == executor && this.defaults == defaults
      ensures configuration == null && informationLogs == 0
      ensures !executor.logErrors && !executor.Logs()
      ensures executor.events == old(executor.events) && executor.reportedResults == old(executor.reportedResults)
    {
      this.executor := executor;
      this.defaults := defaults;
      configuration := null;
      informationLogs := 0;
      new;
      executor.logErrors := false;
    }

    /** The shared default after a call whose code threw exactly when `failed`: created, with
        the default builder, when a failure needed it (the service has no configuration of its
        own) and it did not exist yet; left as it was otherwise. */
    twostate predicate DefaultsUpdated(failed: bool)
      reads this, defaults, defaults.defaultConfiguration
    {
      if failed && old(configuration) == null && old(defaults.defaultConfiguration) == null then
        && defaults.defaultConfiguration != null && fresh(defaults.defaultConfiguration)
        && defaults.defaultConfiguration.badRequestObjectBuilder == Some(DefaultBadRequestObject)
      else
        defaults.defaultConfiguration == old(defaults.defaultConfiguration)
    }

    /** The body of a bad request for `result`, from the builder `EffectiveBuilder` picks; the
        shared default is created when that is the one needed and it does not exist yet. */
    method BuildBadRequestObject(result: ResultView) returns (body: Value)
      modifies defaults
      ensures body == BadRequestBody(old(EffectiveBuilder(configuration, defaults)), Some(result))
      ensures configuration != null ==> defaults.defaultConfiguration == old(defaults.defaultConfiguration)
      ensures configuration == null ==> defaults.defaultConfiguration != null
      ensures old(defaults.defaultConfiguration) != null ==> defaults.defaultConfiguration == old(defaults.defaultConfiguration)
      ensures DefaultsUpdated(true)
    {
      var config := configuration;
      if config == null {
        config := defaults.DefaultConfiguration();
      }
      body := BadRequestBody(config.badRequestObjectBuilder, Some(result));
    }

    /** `TryExecuteAsync<T>`: runs `code` through the executor once, and answers Ok with its
        value, or, after an information log, a bad request built from the failed result. */
    method TryExecuteAsyncFunc(code: AsyncCode<Value>, message: string) returns (response: Response)
      modifies this, executor, code.body, defaults
      ensures code.body.runs == old(code.body.runs) + 1
      ensures var o := code.body.script(old(code.body.runs));
              && executor.events == old(executor.events) + AttemptEvents(o, old(executor.Logs()), message)
              && response == FuncResponse(o.Returned?, if o.Returned? then o.value else Null,
                                          if o.Returned? then Null
                                          else BadRequestBody(old(EffectiveBuilder(configuration, defaults)),
                                                              Some(ResultView(false, Some(o.error)))))
              && informationLogs == old(informationLogs) + (if o.Returned? then 0 else 1)
      ensures configuration == old(configuration) && executor.logErrors == old(executor.logErrors)
      ensures DefaultsUpdated(code.body.script(old(code.body.runs)).Threw?)
      ensures old(executor.reportedResults) <= executor.reportedResults
              && |executor.reportedResults| == |old(executor.reportedResults)| + 1
    {
      var result := executor.TryExecuteAsyncFunc(code, message);
      if result.wasSuccessful {
        response := Ok(result.returnValue);
      } else {
        LogInformation();
        var body := BuildBadRequestObject(ResultView(result.wasSuccessful, result.exception));
        response := BadRequest(body);
      }
    }

    /** `TryExecuteSyncAsAsync<T>`: `TryExecuteAsync<T>` over a fresh asynchronous wrapper of
        `code`. */
    method TryExecuteSyncAsAsyncFunc(code: Code<Value>, message: string) returns (response: Response)
      modifies this, executor, code, defaults
      ensures code.runs == old(code.runs) + 1
      ensures var o := code.script(old(code.runs));
              && executor.events == old(executor.events) + AttemptEvents(o, old(executor.Logs()), message)
              && response == FuncResponse(o.Returned?, if o.Returned? then o.value else Null,
                                          if o.Returned? then Null
                                          else BadRequestBody(old(EffectiveBuilder(configuration, defaults)),
                                                              Some(ResultView(false, Some(o.error)))))
              && informationLogs == old(informationLogs) + (if o.Returned? then 0 else 1)
      ensures configuration == old(configuration) && executor.logErrors == old(executor.logErrors)
      ensures DefaultsUpdated(code.script(old(code.runs)).Threw?)
      ensures old(executor.reportedResults) <= executor.reportedResults
              && |executor.reportedResults| == |old(executor.reportedResults)| + 1
    {
      var wrapper := new AsyncCode(code);
      response := TryExecuteAsyncFunc(wrapper, message);
    }

    /** `TryExecuteAsync` for a `Func<Task>`: no content on success, otherwise as
        `TryExecuteAsyncFunc`. */
    method TryExecuteAsyncAction(code: AsyncCode<()>, message: string) returns (response: Response)
      modifies this, executor, code.body, defaults
      ensures code.body.runs == old(code.body.runs) + 1
      ensures var o := code.body.script(old(code.body.runs));
              && executor.events == old(executor.events) + AttemptEvents(o, old(executor.Logs()), message)
              && response == ActionResponse(o.Returned?,
                                            if o.Returned? then Null
                                            else BadRequestBody(old(EffectiveBuilder(configuration, defaults)),
                                                                Some(ResultView(false, Some(o.error)))))
              && informationLogs == old(informationLogs) + (if o.Returned? then 0 else 1)
      ensures configuration == old(configuration) && executor.logErrors == old(executor.logErrors)
      ensures DefaultsUpdated(code.body.script(old(code.body.runs)).Threw?)
      ensures old(executor.reportedResults) <= executor.reportedResults
              && |executor.reportedResults| == |old(executor.reportedResults)| + 1
    {
      var result := executor.TryExecuteAsyncAction(code, message);
      if result.wasSuccessful {
        response := NoContent;
      } else {
        LogInformation();
        var body := BuildBadRequestObject(ResultView(result.wasSuccessful, result.exception));
        response := BadRequest(body);
      }
    }

    /** `TryExecuteSyncAsAsync` for an `Action`: `TryExecuteAsync` over a fresh asynchronous
        wrapper of `code`. */
    method TryExecuteSyncAsAsyncAction(code: Code<()>, message: string) returns (response: Response)
      modifies this, executor, code, defaults
      ensures code.runs == old(code.runs) + 1
      ensures var o := code.script(old(code.runs));
              && executor.events == old(executor.events) + AttemptEvents(o, old(executor.Logs()), message)
              && response == ActionResponse(o.Returned?,
                                            if o.Returned? then Null
                                            else BadRequestBody(old(EffectiveBuilder(configuration, defaults)),
                                                                Some(ResultView(false, Some(o.error)))))
              && informationLogs == old(informationLogs) + (if o.Returned? then 0 else 1)
      ensures configuration == old(configuration) && executor.logErrors == old(executor.logErrors)
      ensures DefaultsUpdated(code.script(old(code.runs)).Threw?)
      ensures old(executor.reportedResults) <= executor.reportedResults
              && |executor.reportedResults| == |old(executor.reportedResults)| + 1
    {
      var wrapper := new AsyncCode(code);
      response := TryExecuteAsyncAction(wrapper, message);
    }

    /** `_logger.LogInformation(...)`: only the call is recorded. */
    method LogInformation()
      modifies this
      ensures informationLogs == old(informationLogs) + 1
      ensures configuration == old(configuration)
    {
      informationLogs := informationLogs + 1;
    }
  }

  /** With the default builder, a bad request carries the exception's message. */
  lemma DefaultBodyIsMessage(e: Error)
    ensures BadRequestBody(Some(DefaultBadRequestObject), Some(ResultView(false, Some(e)))) == Str(e.message)
  {
  }
}

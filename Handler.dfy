/** The AWS Lambda entry points: the two response builders, which set the
    `Content-Type` header in the headers dict they are given (or in their own
    default dict, shared by every call that omits it), `webhook`, which hands a
    POSTed Telegram update to a freshly configured dispatcher, and `set_webhook`,
    which registers the public URL with Telegram. Telegram, the bot token and the
    JSON library are outside the model: their behaviour in one invocation is given
    as `Services`, and what the entry points ask of them is recorded as `Call`s. */
module Handler {
  import opened Wrappers
  import opened PyDict
  import opened Command
  import opened Commands

  /** `json.dumps(value)`; the encoding is the JSON library's. */
  datatype Json = JsonDumps(value: string)

  /** `{'statusCode': ..., 'headers': ..., 'body': ...}`; `headers` is the dict
      object itself, not a copy. */
  datatype Response = Response(statusCode: int, headers: StrDict, body: Json)

  const ContentType: string := "Content-Type"
  const ApplicationJson: string := "application/json"

  const OkCode: int := 200
  const ErrorCode: int := 400

  const HandledMessage: string := "Update handled propperly."
  const UnsupportedMessage: string := "Unsupported method / missing body."
  const FailedMessage: string := "Failed to set webhook."

  /** The default `headers={}` of each builder: evaluated once, when the `def`
      statement runs, and then shared by every call that omits `headers`. */
  class Defaults {
    const okHeaders: StrDict
    const errorHeaders: StrDict

    constructor ()
      ensures fresh(okHeaders) && fresh(errorHeaders) && okHeaders != errorHeaders
      ensures okHeaders.items == [] && errorHeaders.items == []
    {
      okHeaders := new StrDict([]);
      errorHeaders := new StrDict([]);
    }
  }

  /** `ok_response(code, body, headers)`. */
  method OkResponse(code: int, body: string, headers: StrDict) returns (r: Response)
    modifies headers
    ensures r == Response(code, headers, JsonDumps(body))
    ensures headers.items == WithItem(old(headers.items), ContentType, ApplicationJson)
  {
    headers.Update([(ContentType, ApplicationJson)]);
    assert [(ContentType, ApplicationJson)][..0] == [];
    r := Response(code, headers, JsonDumps(body));
  }

  /** `error_response(code, body, headers)`. */
  method ErrorResponse(code: int, body: string, headers: StrDict) returns (r: Response)
    modifies headers
    ensures r == Response(code, headers, JsonDumps(body))
    ensures headers.items == WithItem(old(headers.items), ContentType, ApplicationJson)
  {
    headers.Update([(ContentType, ApplicationJson)]);
    assert [(ContentType, ApplicationJson)][..0] == [];
    r := Response(code, headers, JsonDumps(body));
  }

  /** What a builder leaves in the headers dict it is given: `Content-Type` is
      `application/json`, every other header keeps its value and place, and a
      second call changes nothing more, so the shared default dict settles after
      the first call. */
  lemma ResponseHeaders(d: Items)
    ensures var h := WithItem(d, ContentType, ApplicationJson);
      Get(h, ContentType) == Some(ApplicationJson) &&
      (forall k :: k != ContentType ==> Get(h, k) == Get(d, k)) &&
      Keys(h)[..|Keys(d)|] == Keys(d) &&
      WithItem(h, ContentType, ApplicationJson) == h
  {
    var h := WithItem(d, ContentType, ApplicationJson);
    forall k ensures Get(h, k) == if k == ContentType then Some(ApplicationJson) else Get(d, k) {
      WithItemGet(d, ContentType, ApplicationJson, k);
    }
    WithItemKeys(d, ContentType, ApplicationJson);
    WithItemTwice(d, ContentType, ApplicationJson, ApplicationJson);
  }

  // ---------------------------------------------------------------------------
  //   The entry points
  // ---------------------------------------------------------------------------

  /** The fields of the Lambda event the entry points read; a missing key and a
      JSON null are both None. */
  datatype Event = Event(
    httpMethod: Option<string>,
    body: Option<string>,
    headers: Option<map<string, string>>,
    requestContext: Option<map<string, string>>)

  /** How the collaborators behave during one invocation. */
  datatype Services = Services(
    bot: Outcome,            // pathfinder.configure_bot(): a bot, or the exception it raises
    decodeUpdate: Outcome,   // json.loads and telegram.Update.de_json on the body
    processUpdate: Outcome,  // dispatcher.process_update(update)
    setWebhook: Result<bool>) // bot.set_webhook(url)

  /** What the entry points ask of Telegram's library. */
  datatype Call =
    | DispatcherCreated
    | UpdateProcessed(body: string, handlers: seq<LibraryHandler>)
    | WebhookSet(url: string)

  /** The log of those requests. */
  class Platform {
    var calls: seq<Call>

    constructor ()
      ensures calls == []
    {
      calls := [];
    }

    method Record(c: Call)
      modifies this
      ensures calls == old(calls) + [c]
    {
      calls := calls + [c];
    }
  }

  datatype Reply = Reply(code: int, text: string)

  /** An invocation: the status code and the body text of the response, and the
      calls it made. */
  datatype Run = Run(reply: Reply, calls: seq<Call>)

  /** `event.get('httpMethod') == 'POST' and event.get('body')`. */
  predicate Gate(event: Event)
  {
    event.httpMethod == Some("POST") && event.body.Some? && event.body.value != ""
  }

  function WebhookFailure(e: PyException): Reply
  {
    Reply(ErrorCode, "Exception " + e.message)
  }

  /** `webhook(event, context)`. */
  function WebhookRun(event: Event, services: Services, registered: seq<HandlerClass>): (run: Run)
  {
    if !Gate(event) then Run(Reply(ErrorCode, UnsupportedMessage), [])
    else if services.bot.Raise? then Run(WebhookFailure(services.bot.error), [])
    else
      var loading := Loaded(registered);
      if loading.outcome.Raise? then Run(WebhookFailure(loading.outcome.error), [DispatcherCreated])
      else if services.decodeUpdate.Raise? then Run(WebhookFailure(services.decodeUpdate.error), [DispatcherCreated])
      else
        var calls := [DispatcherCreated, UpdateProcessed(event.body.value, loading.added)];
        if services.processUpdate.Raise? then Run(WebhookFailure(services.processUpdate.error), calls)
        else Run(Reply(OkCode, HandledMessage), calls)
  }

  /** `pathfinder.configure_dispatcher()`: a bot, a dispatcher, and the registered
      handlers loaded into it. */
  method ConfigureDispatcher(services: Services, registry: Registry, platform: Platform)
    returns (dispatcher: Dispatcher, outcome: Outcome)
    requires services.bot.Pass?
    modifies platform
    ensures fresh(dispatcher)
    ensures platform.calls == old(platform.calls) + [DispatcherCreated]
    ensures dispatcher.handlers == Loaded(registry.handlers).added
    ensures outcome == Loaded(registry.handlers).outcome
  {
    dispatcher := new Dispatcher();
    platform.Record(DispatcherCreated);
    outcome := LoadHandlers(dispatcher, registry);
  }

  /** `webhook(event, context)`: the response is built with the builders' shared
      default headers. */
  method Webhook(event: Event, services: Services, registry: Registry, defaults: Defaults, platform: Platform)
    returns (r: Response)
    requires defaults.okHeaders != defaults.errorHeaders
    modifies defaults.okHeaders, defaults.errorHeaders, platform
    ensures var run := WebhookRun(event, services, old(registry.handlers));
      r.statusCode == run.reply.code && r.body == JsonDumps(run.reply.text) &&
      platform.calls == old(platform.calls) + run.calls
    ensures registry.handlers == old(registry.handlers)
    ensures r.statusCode == OkCode ==>
      r.headers == defaults.okHeaders &&
      defaults.okHeaders.items == WithItem(old(defaults.okHeaders.items), ContentType, ApplicationJson) &&
      defaults.errorHeaders.items == old(defaults.errorHeaders.items)
    ensures r.statusCode != OkCode ==>
      r.headers == defaults.errorHeaders &&
      defaults.errorHeaders.items == WithItem(old(defaults.errorHeaders.items), ContentType, ApplicationJson) &&
      defaults.okHeaders.items == old(defaults.okHeaders.items)
  {
    if Gate(event) {
      if services.bot.Raise? {
        r := ErrorResponse(ErrorCode, "Exception " + services.bot.error.message, defaults.errorHeaders);
        return;
      }
      var dispatcher, loaded := ConfigureDispatcher(services, registry, platform);
      if loaded.Raise? {
        r := ErrorResponse(ErrorCode, "Exception " + loaded.error.message, defaults.errorHeaders);
        return;
      }
      if services.decodeUpdate.Raise? {
        r := ErrorResponse(ErrorCode, "Exception " + services.decodeUpdate.error.message, defaults.errorHeaders);
        return;
      }
      platform.Record(UpdateProcessed(event.body.value, dispatcher.handlers));
      if services.processUpdate.Raise? {
        r := ErrorResponse(ErrorCode, "Exception " + services.processUpdate.error.message, defaults.errorHeaders);
        return;
      }
      r := OkResponse(OkCode, HandledMessage, defaults.okHeaders);
      return;
    }
    r := ErrorResponse(ErrorCode, UnsupportedMessage, defaults.errorHeaders);
  }

  /** `event.get(name).get(key)` formatted into the URL: a missing dict raises
      `AttributeError`, a missing key formats as "None". */
  const NoneHasNoGet: PyException := PyException("AttributeError", "'NoneType' object has no attribute 'get'")

  function FieldText(m: map<string, string>, key: string): string
  {
    Display(if key in m then Some(m[key]) else None)
  }

  /** `'https://{}/{}'.format(Host header, deployment stage)`. */
  function HookUrl(event: Event): Result<string>
  {
    if event.headers.None? || event.requestContext.None? then Failure(NoneHasNoGet)
    else Success("https://" + FieldText(event.headers.value, "Host") + "/" + FieldText(event.requestContext.value, "stage"))
  }

  function SetWebhookFailure(e: PyException): Reply
  {
    Reply(ErrorCode, "Exception: " + e.message)
  }

  /** `set_webhook(event, context)`. */
  function SetWebhookRun(event: Event, services: Services): (run: Run)
  {
    if services.bot.Raise? then Run(SetWebhookFailure(services.bot.error), [])
    else match HookUrl(event)
      case Failure(e) => Run(SetWebhookFailure(e), [])
      case Success(url) =>
        match services.setWebhook
        case Failure(e) => Run(SetWebhookFailure(e), [WebhookSet(url)])
        case Success(accepted) =>
          if accepted then Run(Reply(OkCode, "Webhook set -> " + url), [WebhookSet(url)])
          else Run(Reply(ErrorCode, FailedMessage), [WebhookSet(url)])
  }

  /** `set_webhook(event, context)`: the response is built with the builders'
      shared default headers. */
  method SetWebhook(event: Event, services: Services, defaults: Defaults, platform: Platform)
    returns (r: Response)
    requires defaults.okHeaders != defaults.errorHeaders
    modifies defaults.okHeaders, defaults.errorHeaders, platform
    ensures var run := SetWebhookRun(event, services);
      r.statusCode == run.reply.code && r.body == JsonDumps(run.reply.text) &&
      platform.calls == old(platform.calls) + run.calls
    ensures r.statusCode == OkCode ==>
      r.headers == defaults.okHeaders &&
      defaults.okHeaders.items == WithItem(old(defaults.okHeaders.items), ContentType, ApplicationJson) &&
      defaults.errorHeaders.items == old(defaults.errorHeaders.items)
    ensures r.statusCode != OkCode ==>
      r.headers == defaults.errorHeaders &&
      defaults.errorHeaders.items == WithItem(old(defaults.errorHeaders.items), ContentType, ApplicationJson) &&
      defaults.okHeaders.items == old(defaults.okHeaders.items)
  {
    if services.bot.Raise? {
      r := ErrorResponse(ErrorCode, "Exception: " + services.bot.error.message, defaults.errorHeaders);
      return;
    }
    var url := HookUrl(event);
    if url.Failure? {
      r := ErrorResponse(ErrorCode, "Exception: " + url.error.message, defaults.errorHeaders);
      return;
    }
    platform.Record(WebhookSet(url.value));
    match services.setWebhook {
      case Failure(e) =>
        r := ErrorResponse(ErrorCode, "Exception: " + e.message, defaults.errorHeaders);
      case Success(accepted) =>
        if accepted {
          r := OkResponse(OkCode, "Webhook set -> " + url.value, defaults.okHeaders);
        } else {
          r := ErrorResponse(ErrorCode, FailedMessage, defaults.errorHeaders);
        }
    }
  }

  // ---------------------------------------------------------------------------
  //   Properties of the entry points
  // ---------------------------------------------------------------------------

  /** A request that is not a POST with a non-empty body gets the fixed 400 reply
      and no dispatcher is built; past the gate, every failure reports its
      exception instead. */
  lemma WebhookGate(event: Event, services: Services, registered: seq<HandlerClass>)
    ensures !Gate(event) ==> WebhookRun(event, services, registered) == Run(Reply(ErrorCode, UnsupportedMessage), [])
    ensures Gate(event) ==> WebhookRun(event, services, registered).reply.text != UnsupportedMessage
  {
    var run := WebhookRun(event, services, registered);
    if Gate(event) {
      assert run.reply.text == HandledMessage || exists e :: run.reply == WebhookFailure(e);
      if run.reply.text != HandledMessage {
        var e :| run.reply == WebhookFailure(e);
        assert run.reply.text[0] == 'E';
      }
    }
  }

  /** `webhook` answers 200 exactly when the gate passes and no step raises; it
      then has built one dispatcher with one handler per registered class and has
      processed the update exactly once, with that dispatcher. */
  lemma WebhookSucceeds(event: Event, services: Services, registered: seq<HandlerClass>)
    ensures WebhookRun(event, services, registered).reply.code == OkCode <==>
      Gate(event) && services.bot.Pass? && services.decodeUpdate.Pass? && services.processUpdate.Pass? &&
      forall i :: 0 <= i < |registered| ==> Instantiate(registered[i]).Success?
    ensures WebhookRun(event, services, registered).reply.code == OkCode ==>
      WebhookRun(event, services, registered) ==
        Run(Reply(OkCode, HandledMessage),
            [DispatcherCreated, UpdateProcessed(event.body.value, Loaded(registered).added)]) &&
      |Loaded(registered).added| == |registered| &&
      forall i :: 0 <= i < |registered| ==> Loaded(registered).added[i] == Instantiate(registered[i]).value
  {
    LoadedPrefix(registered);
  }

  /** Whatever happens, `webhook` answers 200 or 400, processes the update at
      most once, and only as its last call. */
  lemma WebhookProcessesAtMostOnce(event: Event, services: Services, registered: seq<HandlerClass>)
    ensures var run := WebhookRun(event, services, registered);
      (run.reply.code == OkCode || run.reply.code == ErrorCode) &&
      |run.calls| <= 2 &&
      forall i :: 0 <= i < |run.calls| && run.calls[i].UpdateProcessed? ==> i == |run.calls| - 1
  {
  }

  /** Past the gate, every 400 from `webhook` reports, as "Exception <text>", an
      exception raised by one of its steps: configuring the bot, instantiating a
      registered class, decoding the update or processing it. */
  lemma WebhookReportsExceptions(event: Event, services: Services, registered: seq<HandlerClass>)
    requires Gate(event)
    ensures var run := WebhookRun(event, services, registered);
      run.reply.code == ErrorCode ==>
        (services.bot.Raise? && run.reply == WebhookFailure(services.bot.error)) ||
        (exists i :: 0 <= i < |registered| && Instantiate(registered[i]).Failure? &&
           run.reply == WebhookFailure(Instantiate(registered[i]).error)) ||
        (services.decodeUpdate.Raise? && run.reply == WebhookFailure(services.decodeUpdate.error)) ||
        (services.processUpdate.Raise? && run.reply == WebhookFailure(services.processUpdate.error))
  {
    LoadedPrefix(registered);
  }

  /** Every 400 from `set_webhook` is either the refusal text or reports, as
      "Exception: <text>", an exception raised while configuring the bot, reading
      the event or calling Telegram. */
  lemma SetWebhookReportsExceptions(event: Event, services: Services)
    ensures var run := SetWebhookRun(event, services);
      run.reply.code == ErrorCode ==>
        run.reply == Reply(ErrorCode, FailedMessage) ||
        (services.bot.Raise? && run.reply == SetWebhookFailure(services.bot.error)) ||
        ((event.headers.None? || event.requestContext.None?) && run.reply == SetWebhookFailure(NoneHasNoGet)) ||
        (services.setWebhook.Failure? && run.reply == SetWebhookFailure(services.setWebhook.error))
  {
  }

  /** `set_webhook` answers 200 exactly when the bot is configured, the event
      carries headers and a request context, and Telegram accepts the URL. */
  lemma SetWebhookSucceeds(event: Event, services: Services)
    ensures SetWebhookRun(event, services).reply.code == OkCode <==>
      services.bot.Pass? && event.headers.Some? && event.requestContext.Some? &&
      services.setWebhook == Success(true)
    ensures SetWebhookRun(event, services).reply.code != OkCode ==>
      SetWebhookRun(event, services).reply.code == ErrorCode
  {
  }

  /** The URL registered for Host "example.com" and stage "prod". */
  lemma SetWebhookExample(services: Services)
    requires services.bot.Pass?
    ensures SetWebhookRun(Event(None, None, Some(map["Host" := "example.com"]), Some(map["stage" := "prod"])), services).calls ==
      [WebhookSet("https://example.com/prod")]
  {
    var event := Event(None, None, Some(map["Host" := "example.com"]), Some(map["stage" := "prod"]));
    assert FieldText(event.headers.value, "Host") == "example.com";
    assert FieldText(event.requestContext.value, "stage") == "prod";
    assert HookUrl(event) == Success("https://" + "example.com" + "/" + "prod");
    assert "https://" + "example.com" + "/" + "prod" == "https://example.com/prod";
  }
}

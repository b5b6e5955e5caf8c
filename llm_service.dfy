/** The Ollama client (`LLMService`): the health check run before a
    service is made, request construction with the optional system
    prompt, and the classification of the daemon's answers. The HTTP calls
    are not made here: each answer is an input, and the result is a
    `Result` whose failure is the exception the source raises. */
module LlmServices {
  import opened Common

  /** The exceptions that leave the service: `ValueError`, the
      `requests.HTTPError` of `raise_for_status()`, a `requests` transport
      error re-raised unchanged, and the JSON decoding error of
      `response.json()`. */
  datatype LlmError = ValueError(msg: string) | HttpError(status: int) | RequestError(msg: string) | JsonError

  /** `app.config['TEST_OLLAMA_DOWN']` and `app.config['TEST_OLLAMA_NOMODEL']`. */
  datatype TestFlags = TestFlags(ollamaDown: bool, noModel: bool)

  datatype ModelEntry = ModelEntry(name: string)

  /** What `GET /api/tags` gives: the connection is refused, another
      exception is raised on the way (its text), or a response with its
      status and its `models` list (empty when the field is missing). */
  datatype TagsReply = ConnectFailed(msg: string) | Raised(msg: string) | Tags(status: int, models: seq<ModelEntry>)

  const CANNOT_CONNECT: string := "Cannot connect to Ollama, please make sure it's running.\n\nInstall [Ollama](https://ollama.com), and run `ollama serve`"
  const NO_MODELS: string := "**No models available**\n\nPlease install a model first. For example:\n\n`ollama pull mistral`"
  const NOT_RESPONDING: string := "**Ollama is not responding**\n\nPlease make sure Ollama is running with `ollama serve`"

  /** The text of the catch-all handler of `check_ollama_status`. */
  function StatusCheckFailed(inner: string): string {
    "**Error checking Ollama status**\n\n" + inner + "\n\nPlease check your Ollama installation."
  }

  /** `check_ollama_status()`: `None` when it returns normally. The test
      flags are looked at first, the daemon down before no model; the
      `ValueError`s raised inside the `try` for a bad status or an empty
      model list are caught by its catch-all handler and come out wrapped
      in its text. */
  function CheckOllamaStatus(flags: TestFlags, reply: TagsReply): (r: Option<LlmError>)
    ensures r.Some? ==> r.value.ValueError?
    ensures flags.ollamaDown ==> r == Some(ValueError(CANNOT_CONNECT))
    ensures !flags.ollamaDown && flags.noModel ==> r == Some(ValueError(NO_MODELS))
    ensures r.None? <==> !flags.ollamaDown && !flags.noModel && reply.Tags? && reply.status == 200 && reply.models != []
  {
    if flags.ollamaDown then Some(ValueError(CANNOT_CONNECT))
    else if flags.noModel then Some(ValueError(NO_MODELS))
    else match reply
      case ConnectFailed(_) => Some(ValueError(CANNOT_CONNECT))
      case Raised(e) => Some(ValueError(StatusCheckFailed(e)))
      case Tags(status, models) =>
        if status != 200 then Some(ValueError(StatusCheckFailed(NOT_RESPONDING)))
        else if models == [] then Some(ValueError(StatusCheckFailed(NO_MODELS)))
        else None
  }

  /** The test flags decide before any answer of the daemon is looked at.
      This follows from the definition of `CheckOllamaStatus` directly. */
  lemma FlagsComeFirst(flags: TestFlags, a: TagsReply, b: TagsReply)
    requires flags.ollamaDown || flags.noModel
    ensures CheckOllamaStatus(flags, a) == CheckOllamaStatus(flags, b)
  {
  }

  const FETCH_FAILED: string := "Failed to fetch available models"

  /** `get_available_models()`: the model names in the order listed; any
      failure, the service's own one for a bad status included, comes out
      as `ValueError("Failed to fetch available models: ...")`. */
  function GetAvailableModels(reply: TagsReply): (r: Result<seq<string>, LlmError>)
    ensures r.Success? <==> reply.Tags? && reply.status == 200
    ensures r.Success? ==> |r.value| == |reply.models|
    ensures r.Success? ==> forall i :: 0 <= i < |r.value| ==> r.value[i] == reply.models[i].name
    ensures r.Failure? ==> r.error.ValueError? && StartsWith(r.error.msg, FETCH_FAILED + ": ")
  {
    match reply
    case ConnectFailed(e) => Failure(ValueError(FETCH_FAILED + ": " + e))
    case Raised(e) => Failure(ValueError(FETCH_FAILED + ": " + e))
    case Tags(status, models) =>
      if status != 200 then Failure(ValueError(FETCH_FAILED + ": " + FETCH_FAILED))
      else Success(seq(|models|, i requires 0 <= i < |models| => models[i].name))
  }

  /** The fields `__init__` sets once the health check passes. */
  datatype LlmService = LlmService(model: string, prompt: Option<string>)

  /** `LLMService(model, prompt)`: the health check's error, or the
      service. */
  function NewService(model: string, prompt: Option<string>, flags: TestFlags, reply: TagsReply): (r: Result<LlmService, LlmError>)
    ensures r.Success? <==> CheckOllamaStatus(flags, reply).None?
    ensures r.Success? ==> r.value == LlmService(model, prompt)
    ensures r.Failure? ==> Some(r.error) == CheckOllamaStatus(flags, reply)
  {
    var check := CheckOllamaStatus(flags, reply);
    if check.Some? then Failure(check.value) else Success(LlmService(model, prompt))
  }

  /** `if self.prompt: messages = [system] + messages`. */
  function WithSystemPrompt(prompt: Option<string>, messages: seq<Message>): seq<Message> {
    if prompt.Some? && prompt.value != "" then [Message("system", prompt.value)] + messages else messages
  }

  /** A system message is added in front exactly when the prompt is
      non-empty, and the caller's messages follow unchanged. */
  lemma SystemPromptPrepended(prompt: Option<string>, messages: seq<Message>)
    ensures var r := WithSystemPrompt(prompt, messages);
            && (prompt.Some? && prompt.value != "" <==> |r| == |messages| + 1)
            && (prompt.None? || prompt.value == "" <==> r == messages)
            && r[|r| - |messages|..] == messages
            && (|r| > |messages| ==> r[0] == Message("system", prompt.value))
  {
  }

  /** The parts of the request body that are not passed-through options
      (`temperature`, `top_p`, `num_predict` and `num_ctx` are left out). */
  datatype ChatRequest = ChatRequest(model: string, messages: seq<Message>, stream: bool)

  /** The request both generators post: the service's model, the given
      stream flag, and the caller's messages behind a system message
      exactly when the service has a non-empty prompt. */
  function Request(svc: LlmService, messages: seq<Message>, stream: bool): (r: ChatRequest)
    ensures r.model == svc.model && r.stream == stream
    ensures |messages| <= |r.messages| <= |messages| + 1
    ensures |r.messages| == |messages| + 1 <==> svc.prompt.Some? && svc.prompt.value != ""
    ensures r.messages[|r.messages| - |messages|..] == messages
    ensures |r.messages| > |messages| ==> r.messages[0] == Message("system", svc.prompt.value)
  {
    SystemPromptPrepended(svc.prompt, messages);
    ChatRequest(svc.model, WithSystemPrompt(svc.prompt, messages), stream)
  }

  /** The request of `generate_response_stream`, and of
      `generate_response_sync`: same model and messages, only the stream
      flag differs. */
  lemma RequestsDifferOnlyInStream(svc: LlmService, messages: seq<Message>)
    ensures Request(svc, messages, true).stream && !Request(svc, messages, false).stream
    ensures Request(svc, messages, true).(stream := false) == Request(svc, messages, false)
  {
  }

  /** What `POST /api/chat` gives: a transport error (its text) or a
      response with its status and body text. */
  datatype HttpReply = Unreachable(msg: string) | Response(status: int, text: string)

  /** `generate_response_stream`: the response on status 200, else a
      `ValueError`. */
  function StreamOutcome(reply: HttpReply): (r: Result<HttpReply, LlmError>)
    ensures r.Success? <==> reply.Response? && reply.status == 200
    ensures r.Success? ==> r.value == reply
    ensures r.Failure? ==> r.error.ValueError? && StartsWith(r.error.msg, "Failed to generate response: ")
  {
    match reply
    case Unreachable(e) => Failure(ValueError("Failed to generate response: " + e))
    case Response(status, text) =>
      if status != 200 then Failure(ValueError("Failed to generate response: " + text)) else Success(reply)
  }

  /** The body of a non-streaming answer: `message.content` present, the
      field missing, or not JSON at all. */
  datatype SyncBody = Content(content: string) | NoContent | NotJson

  datatype SyncReply = SyncRaised(msg: string) | SyncResponse(status: int, body: SyncBody)

  function NotFoundHead(model: string): string {
    "Model '" + model + "' not found"
  }

  /** The 404 branch of `generate_response_sync` as written: the
      `ValueError` raised inside the `try` with the model list is caught by
      the handler right after it and wrapped once more. */
  function NotFoundMessageAsWritten(model: string, available: Result<seq<string>, string>): string {
    var inner := if available.Success? then NotFoundHead(model) + ". Available models: " + JoinWith(", ", available.value)
                 else available.error;
    NotFoundHead(model) + " and " + inner
  }

  /** With a model list in hand, the message as written names the missing
      model twice. */
  lemma NotFoundAsWrittenRepeats(model: string, names: seq<string>)
    ensures var msg := NotFoundMessageAsWritten(model, Success(names));
            var head := NotFoundHead(model);
            && StartsWith(msg, head + " and ")
            && msg[|head + " and "|..] == head + ". Available models: " + JoinWith(", ", names)
  {
    var head := NotFoundHead(model);
    var tail := head + ". Available models: " + JoinWith(", ", names);
    assert NotFoundMessageAsWritten(model, Success(names)) == (head + " and ") + tail;
  }

  /** The message of the 404 branch: the model list when it could be
      fetched, else why not. */
  function NotFoundMessage(model: string, available: Result<seq<string>, string>): string {
    if available.Success? then NotFoundHead(model) + ". Available models: " + JoinWith(", ", available.value)
    else NotFoundHead(model) + " and " + available.error
  }

  /** The intended message names the model once, at its start, followed by
      exactly the list of names; the as-written one differs from it
      whenever a list was fetched. */
  lemma NotFoundMessageNamesModelOnce(model: string, names: seq<string>)
    ensures var msg := NotFoundMessage(model, Success(names));
            && StartsWith(msg, NotFoundHead(model) + ". ")
            && msg[|NotFoundHead(model) + ". "|..] == "Available models: " + JoinWith(", ", names)
    ensures NotFoundMessage(model, Success(names)) != NotFoundMessageAsWritten(model, Success(names))
  {
    var head := NotFoundHead(model);
    var msg := NotFoundMessage(model, Success(names));
    assert msg == (head + ". ") + ("Available models: " + JoinWith(", ", names));
    var bad := NotFoundMessageAsWritten(model, Success(names));
    assert bad == head + " and " + (head + ". Available models: " + JoinWith(", ", names));
    assert msg[|head|] == '.' && bad[|head|] == ' ';
  }

  /** The outcome of `get_available_models()`, its error as text. */
  function Listing(models: TagsReply): Result<seq<string>, string> {
    var r := GetAvailableModels(models);
    if r.Success? then Success(r.value) else Failure(r.error.msg)
  }

  /** `generate_response_sync` as written: the transport error as is; on
      404 the twice-wrapped `ValueError` naming the model; on any other 4xx
      or 5xx the `HTTPError`; else `message.content`, or the "unexpected
      format" `ValueError` when it is missing. */
  function SyncOutcome(svc: LlmService, reply: SyncReply, models: TagsReply): (r: Result<string, LlmError>)
    ensures r.Success? <==> reply.SyncResponse? && !(400 <= reply.status < 600) && reply.body.Content?
    ensures r.Success? ==> r.value == reply.body.content
    ensures reply.SyncRaised? ==> r == Failure(RequestError(reply.msg))
    ensures reply.SyncResponse? && reply.status == 404 ==>
              r == Failure(ValueError(NotFoundMessageAsWritten(svc.model, Listing(models))))
              && StartsWith(r.error.msg, NotFoundHead(svc.model) + " and ")
    ensures reply.SyncResponse? && reply.status != 404 && 400 <= reply.status < 600 ==>
              r == Failure(HttpError(reply.status))
    ensures reply.SyncResponse? && !(400 <= reply.status < 600) && reply.body.NoContent? ==>
              r == Failure(ValueError("Unexpected response format from Ollama"))
    ensures reply.SyncResponse? && !(400 <= reply.status < 600) && reply.body.NotJson? ==>
              r == Failure(JsonError)
  {
    match reply
    case SyncRaised(e) => Failure(RequestError(e))
    case SyncResponse(status, body) =>
      if status == 404 then
        var msg := NotFoundMessageAsWritten(svc.model, Listing(models));
        assert msg == (NotFoundHead(svc.model) + " and ") + msg[|NotFoundHead(svc.model) + " and "|..];
        Failure(ValueError(msg))
      else if 400 <= status < 600 then Failure(HttpError(status))
      else match body
        case Content(c) => Success(c)
        case NoContent => Failure(ValueError("Unexpected response format from Ollama"))
        case NotJson => Failure(JsonError)
  }

  /** `generate_response_sync` as evidently intended: the same outcome in
      every case but the 404, whose message names the model once and then
      the list (or why it could not be fetched). With a list in hand it
      differs from what the code raises. */
  function SyncOutcomeIntended(svc: LlmService, reply: SyncReply, models: TagsReply): (r: Result<string, LlmError>)
    ensures !(reply.SyncResponse? && reply.status == 404) ==> r == SyncOutcome(svc, reply, models)
    ensures reply.SyncResponse? && reply.status == 404 ==>
              r == Failure(ValueError(NotFoundMessage(svc.model, Listing(models))))
    ensures reply.SyncResponse? && reply.status == 404 && Listing(models).Success? ==>
              StartsWith(r.error.msg, NotFoundHead(svc.model) + ". ")
              && r != SyncOutcome(svc, reply, models)
  {
    if reply.SyncResponse? && reply.status == 404 then
      var listing := Listing(models);
      if listing.Success? then
        NotFoundMessageNamesModelOnce(svc.model, listing.value);
        Failure(ValueError(NotFoundMessage(svc.model, listing)))
      else Failure(ValueError(NotFoundMessage(svc.model, listing)))
    else SyncOutcome(svc, reply, models)
  }
}

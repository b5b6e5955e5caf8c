/** The chat endpoints of the Flask app: the two `generate()` relays that
    turn Ollama's NDJSON stream into server-sent events and persist what
    was said (`/ui/chat/init` and `POST /ui/chat`), the history endpoints
    (`GET` and `DELETE /ui/chat`), and the stateless `/api/chat`.

    The SSE text of an event is abstracted to the event itself:
    `ContentEvent(c)` is `data: {"content": c}`, `ErrorEvent(e)` is
    `data: {"error": e}`, `DoneEvent` is `data: [DONE]`. The outcome of
    `generate_response_stream` is an input: the upstream response, or the
    text of the `ValueError` it raised. */
module ChatRoutes {
  import opened Common
  import opened Ndjson
  import opened Store
  import opened ChatServices

  datatype Event = ContentEvent(content: string) | ErrorEvent(error: string) | DoneEvent

  /** The JSON bodies the endpoints answer with. */
  datatype Body =
    | ErrorBody(error: string)
    | HistoryBody(found: bool, history: seq<Message>)
    | StatusSuccess
    | ResponseBody(response: string)

  datatype Response = Json(status: int, body: Body) | EventStream(events: seq<Event>)

  function ContentEvents(cs: seq<string>): (es: seq<Event>)
    ensures |es| == |cs|
    ensures forall i :: 0 <= i < |cs| ==> es[i] == ContentEvent(cs[i])
  {
    seq(|cs|, i requires 0 <= i < |cs| => ContentEvent(cs[i]))
  }

  /** The events one `generate()` yields for an upstream response: one
      content event per collected content, in order; one error event if
      reading failed; and `[DONE]` from the `finally`. */
  function RelayEvents(up: Upstream): seq<Event> {
    ContentEvents(Contents(up.lines))
      + (if EndedWith(up).Some? then [ErrorEvent(EndedWith(up).value)] else [])
      + [DoneEvent]
  }

  /** The shape of every relayed stream: exactly one `[DONE]`, and it is
      last; an error event only if reading failed, and then exactly one,
      right before `[DONE]`; everything before is the contents, in order,
      none of them empty. */
  lemma RelayShape(up: Upstream)
    ensures var es := RelayEvents(up);
            && |es| >= 1 && es[|es| - 1] == DoneEvent
            && (forall i :: 0 <= i < |es| - 1 ==> !es[i].DoneEvent?)
            && (forall i :: 0 <= i < |es| ==> (es[i].ErrorEvent? <==> EndedWith(up).Some? && i == |es| - 2))
            && (EndedWith(up).Some? ==> es[|es| - 2] == ErrorEvent(EndedWith(up).value))
            && (forall i :: 0 <= i < |Contents(up.lines)| ==> es[i] == ContentEvent(Contents(up.lines)[i]) && es[i].content != "")
            && |es| == |Contents(up.lines)| + (if EndedWith(up).Some? then 2 else 1)
  {
    ContentsNonEmpty(up.lines);
  }

  /** The content events of a relay are exactly the collected contents, so
      their texts concatenate to what is persisted. */
  lemma RelayedTextIsCollected(up: Upstream)
    ensures var es := RelayEvents(up);
            var n := |Contents(up.lines)|;
            Flatten(seq(n, i requires 0 <= i < n => es[i].content)) == Collected(up)
  {
    var es := RelayEvents(up);
    var n := |Contents(up.lines)|;
    assert seq(n, i requires 0 <= i < n => es[i].content) == Contents(up.lines);
  }

  /** Noise lines do not show in the relayed stream. */
  lemma RelayIgnoresNoise(lines: seq<Line>, n: Line, rest: seq<Line>, broken: Option<string>)
    requires Noise(n)
    ensures RelayEvents(Upstream(lines + [n] + rest, broken)) == RelayEvents(Upstream(lines + rest, broken))
    ensures Collected(Upstream(lines + [n] + rest, broken)) == Collected(Upstream(lines + rest, broken))
  {
    NoiseSkipped(lines, n, rest);
  }

  /** The loop of `generate()`: it yields the relayed events, returns the
      collected text and how reading ended (`None`: normally). */
  method Relay(up: Upstream) returns (events: seq<Event>, collected: string, failure: Option<string>)
    ensures events == RelayEvents(up)
    ensures collected == Collected(up)
    ensures failure == EndedWith(up)
  {
    var lines := up.lines;
    var i := 0;
    var err: Option<string> := None;
    events, collected := [], "";
    while i < |lines| && err.None?
      invariant 0 <= i <= |lines|
      invariant err == FirstError(lines[..i])
      invariant events == ContentEvents(Contents(lines[..i]))
      invariant collected == Flatten(Contents(lines[..i]))
    {
      var line := lines[i];
      ContentsSnoc(lines, i);
      ghost var cs := Contents(lines[..i]);
      match line {
        case Misshapen(e) =>
          err := Some(e);
        case Chunk(content) =>
          if content.Some? && content.value != "" {
            FlattenSnoc(cs, content.value);
            collected := collected + content.value;
            events := events + [ContentEvent(content.value)];
          }
        case _ =>
      }
      if LineContent(line) == [] {
        assert cs + LineContent(line) == cs;
      }
      i := i + 1;
    }
    if err.Some? {
      ContentsStop(lines, i);
    } else {
      assert lines[..i] == lines;
    }
    failure := if err.Some? then err else up.brokenWith;
    if failure.Some? {
      events := events + [ErrorEvent(failure.value)];
    }
    events := events + [DoneEvent];
  }

  /** Whether a relay persists what it collected: only when reading ended
      normally and something was collected. */
  predicate Persists(up: Upstream) {
    EndedWith(up).None? && Collected(up) != ""
  }

  /** `GET /ui/chat/init`, after `auth()` and `ChatService(...)`: on a
      stream error a 500; otherwise the relayed stream, after which the
      history is the stripped welcome text when there was one, and is left
      alone otherwise. */
  method Welcome(svc: ChatService, file: Option<string>, stream: Result<Upstream, string>) returns (r: Response)
    requires svc.Valid()
    modifies svc`history, svc`systemPrompt, svc.redis
    ensures svc.Valid()
    ensures var c := ResolvePrompt(old(svc.systemPrompt), StoredText(old(svc.redis.data), svc.promptKey), file);
            && svc.systemPrompt == Some(c.prompt)
            && (stream.Failure? || !Persists(stream.value) ==>
                  svc.redis.data == PromptWritten(old(svc.redis.data), svc.promptKey, c))
            && (stream.Success? && Persists(stream.value) ==>
                  svc.redis.data == PromptWritten(old(svc.redis.data), svc.promptKey, c)[svc.historyKey := Serialized(svc.history)])
    ensures stream.Failure? ==> r == Json(500, ErrorBody(stream.error)) && svc.history == old(svc.history)
    ensures stream.Success? ==> r == EventStream(RelayEvents(stream.value))
    ensures stream.Success? && Persists(stream.value) ==>
              svc.history == [Message("assistant", Strip(Collected(stream.value)))]
              && StoredHistory(svc.redis.data, svc.historyKey) == svc.history
    ensures stream.Success? && !Persists(stream.value) ==> svc.history == old(svc.history)
  {
    var messages, prompt := svc.GetWelcomeMessage(file);
    if stream.Failure? {
      return Json(500, ErrorBody(stream.error));
    }
    var events, collected, failure := Relay(stream.value);
    if failure.None? && collected != "" {
      var h := svc.InitializeChatWithMessage(Strip(collected));
    }
    r := EventStream(events);
  }

  /** `GET /ui/chat`: the history reloaded, and whether it is non-empty. */
  method ChatGet(svc: ChatService) returns (r: Response)
    requires svc.Valid()
    modifies svc`history
    ensures svc.Valid()
    ensures svc.history == StoredHistory(svc.redis.data, svc.historyKey)
    ensures r == Json(200, HistoryBody(svc.history != [], svc.history))
  {
    var found := svc.LoadHistory();
    r := Json(200, HistoryBody(found, svc.history));
  }

  /** `DELETE /ui/chat`: the history gone, in memory and in the store. */
  method ChatDelete(svc: ChatService) returns (r: Response)
    requires svc.Valid()
    modifies svc`history, svc.redis
    ensures svc.Valid()
    ensures r == Json(200, StatusSuccess)
    ensures svc.history == [] && svc.redis.data == old(svc.redis.data) - {svc.historyKey}
  {
    svc.ClearHistory();
    r := Json(200, StatusSuccess);
  }

  /** `str(KeyError('prompt'))`, and what subscripting a missing JSON body
      raises. */
  const MISSING_PROMPT_KEY: string := "'prompt'"
  const NO_BODY: string := "'NoneType' object is not subscriptable"

  /** `POST /ui/chat` with the JSON body (`None`: none). Without a prompt
      the lookup raises and the outer handler answers 500, nothing stored.
      Otherwise the user message is appended and saved first, so it stays
      even when the stream request then fails with a 500; on a stream the
      assistant's stripped answer follows it when the relay persists. */
  method ChatPost(svc: ChatService, body: Option<map<string, string>>, file: Option<string>,
                  stream: Result<Upstream, string>) returns (r: Response)
    requires svc.Valid()
    modifies svc`history, svc`systemPrompt, svc.redis
    ensures svc.Valid()
    ensures body.None? ==> r == Json(500, ErrorBody(NO_BODY))
    ensures body.Some? && "prompt" !in body.value ==> r == Json(500, ErrorBody(MISSING_PROMPT_KEY))
    ensures body.None? || "prompt" !in body.value ==>
              && svc.history == old(svc.history) && svc.systemPrompt == old(svc.systemPrompt)
              && svc.redis.data == old(svc.redis.data)
    ensures body.Some? && "prompt" in body.value ==>
              var c := ResolvePrompt(old(svc.systemPrompt), StoredText(old(svc.redis.data), svc.promptKey), file);
              && svc.systemPrompt == Some(c.prompt)
              && svc.redis.data == PromptWritten(old(svc.redis.data)[svc.historyKey := Serialized(svc.history)], svc.promptKey, c)
    ensures body.Some? && "prompt" in body.value && stream.Failure? ==>
              r == Json(500, ErrorBody(stream.error))
              && svc.history == old(svc.history) + [Message("user", body.value["prompt"])]
    ensures body.Some? && "prompt" in body.value && stream.Success? ==>
              r == EventStream(RelayEvents(stream.value))
              && svc.history == old(svc.history) + [Message("user", body.value["prompt"])]
                   + (if Persists(stream.value) then [Message("assistant", Strip(Collected(stream.value)))] else [])
    ensures body.Some? && "prompt" in body.value ==> StoredHistory(svc.redis.data, svc.historyKey) == svc.history
  {
    if body.None? {
      return Json(500, ErrorBody(NO_BODY));
    }
    if "prompt" !in body.value {
      return Json(500, ErrorBody(MISSING_PROMPT_KEY));
    }
    var messages, prompt := svc.ProcessMessage(body.value["prompt"], file);
    if stream.Failure? {
      return Json(500, ErrorBody(stream.error));
    }
    var events, collected, failure := Relay(stream.value);
    if failure.None? && collected != "" {
      svc.AddMessage(Strip(collected), "assistant");
    }
    r := EventStream(events);
  }

  const MISSING_PROMPT: string := "Missing prompt in request"

  /** The messages `api_chat` sends, or `None` when it answers 400. */
  function ApiChatMessages(body: Option<map<string, string>>): (r: Option<seq<Message>>)
    ensures r.None? <==> body.None? || "prompt" !in body.value
    ensures r.Some? ==> |r.value| == if "system_prompt" in body.value then 2 else 1
    ensures r.Some? ==> r.value[|r.value| - 1] == Message("user", body.value["prompt"])
    ensures r.Some? && "system_prompt" in body.value ==> r.value[0] == Message("system", body.value["system_prompt"])
    ensures r.Some? ==> forall i :: 0 <= i < |r.value| - 1 ==> r.value[i].role == "system"
  {
    if body.None? || "prompt" !in body.value then None
    else
      var sys := if "system_prompt" in body.value then [Message("system", body.value["system_prompt"])] else [];
      Some(sys + [Message("user", body.value["prompt"])])
  }

  /** `POST /api/chat`. The synchronous LLM call is the oracle `call`
      (its error as text); it is made only with the prepared messages, and
      not at all on a 400. */
  function ApiChat(body: Option<map<string, string>>, call: seq<Message> -> Result<string, string>): (r: Response)
    ensures r.Json?
    ensures r.status == 400 <==> ApiChatMessages(body).None?
    ensures r.status == 400 ==> r.body == ErrorBody(MISSING_PROMPT)
    ensures r.status == 200 <==> ApiChatMessages(body).Some? && call(ApiChatMessages(body).value).Success?
    ensures r.status == 200 ==> r.body == ResponseBody(call(ApiChatMessages(body).value).value)
    ensures r.status !in {200, 400} ==> r.status == 500 && r.body == ErrorBody(call(ApiChatMessages(body).value).error)
  {
    var messages := ApiChatMessages(body);
    if messages.None? then Json(400, ErrorBody(MISSING_PROMPT))
    else
      var answer := call(messages.value);
      if answer.Success? then Json(200, ResponseBody(answer.value))
      else Json(500, ErrorBody(answer.error))
  }

  /** A 400 makes no LLM call: the answer is the same whatever the LLM
      would have said. */
  lemma BadRequestMakesNoCall(body: Option<map<string, string>>, c1: seq<Message> -> Result<string, string>,
                              c2: seq<Message> -> Result<string, string>)
    requires body.None? || "prompt" !in body.value
    ensures ApiChat(body, c1) == ApiChat(body, c2) == Json(400, ErrorBody(MISSING_PROMPT))
  {
  }
}

/** The older, self-contained chat model (`Chat` in `models.py`): a
    per-user history under `chat_history:<id>` that is never empty once
    loaded, because a missing history is replaced by a welcome message
    streamed from the LLM; and the system prompt that `_llm_call` always
    sends first.

    The prompt file is an input (`Some(text)` when `/flask/prompt.txt`
    can be read), and so is every LLM answer: the upstream response that
    `requests.post` returns, as NDJSON lines. */
module Models {
  import opened Common
  import opened Ndjson
  import opened Store
  import opened Users

  const FALLBACK_PROMPT: string := "You are a helpful AI assistant."
  const WELCOME_PROMPT: string := "Please provide a brief, welcoming message to start our conversation."
  const FALLBACK_WELCOME: string := "Hello! How can I help you today?"

  /** The welcome text `_init_chat` reads from the stream: the collected
      contents, or the fixed greeting when reading raised (a misshapen
      line or a broken stream), whatever had been collected by then. */
  function WelcomeText(up: Upstream): (w: string)
    ensures EndedWith(up).Some? ==> w == FALLBACK_WELCOME
    ensures EndedWith(up).None? ==> w == Flatten(Contents(up.lines))
  {
    if EndedWith(up).Some? then FALLBACK_WELCOME else Collected(up)
  }

  /** Blank and unparseable lines do not change the welcome text. */
  lemma WelcomeIgnoresNoise(lines: seq<Line>, n: Line, rest: seq<Line>, broken: Option<string>)
    requires Noise(n)
    ensures WelcomeText(Upstream(lines + [n] + rest, broken)) == WelcomeText(Upstream(lines + rest, broken))
  {
    NoiseSkipped(lines, n, rest);
  }

  /** The loop of `_init_chat`. */
  method CollectWelcome(up: Upstream) returns (welcome: string)
    ensures welcome == WelcomeText(up)
  {
    var lines := up.lines;
    var i := 0;
    var err: Option<string> := None;
    welcome := "";
    while i < |lines| && err.None?
      invariant 0 <= i <= |lines|
      invariant err == FirstError(lines[..i])
      invariant welcome == Flatten(Contents(lines[..i]))
    {
      ContentsSnoc(lines, i);
      ghost var cs := Contents(lines[..i]);
      match lines[i] {
        case Misshapen(e) =>
          err := Some(e);
        case Chunk(content) =>
          if content.Some? && content.value != "" {
            FlattenSnoc(cs, content.value);
            welcome := welcome + content.value;
          }
        case _ =>
      }
      if LineContent(lines[i]) == [] {
        assert cs + LineContent(lines[i]) == cs;
      }
      i := i + 1;
    }
    if err.Some? {
      ContentsStop(lines, i);
    } else {
      assert lines[..i] == lines;
    }
    if err.Some? || up.brokenWith.Some? {
      welcome := FALLBACK_WELCOME;
    }
  }

  /** The prompt `_llm_call` uses: the cached one, else the stripped file
      text (even when empty), else the fallback. */
  function ModelPrompt(cache: Option<string>, file: Option<string>): (p: string)
    ensures cache.Some? ==> p == cache.value
    ensures cache.None? && file.Some? ==> p == Strip(file.value)
    ensures cache.None? && file.None? ==> p == FALLBACK_PROMPT
  {
    if cache.Some? then cache.value else if file.Some? then Strip(file.value) else FALLBACK_PROMPT
  }

  /** The prompt is read once: after the first call the file no longer
      matters. */
  lemma ModelPromptLoadedOnce(cache: Option<string>, file: Option<string>, later: Option<string>)
    ensures ModelPrompt(Some(ModelPrompt(cache, file)), later) == ModelPrompt(cache, file)
  {
  }

  /** The message list `_llm_call` posts: exactly one system message, then
      the given messages unchanged, whatever the prompt (even empty). */
  function OllamaMessages(prompt: string, messages: seq<Message>): (r: seq<Message>)
    ensures |r| == |messages| + 1
    ensures r[0] == Message("system", prompt) && r[1..] == messages
  {
    [Message("system", prompt)] + messages
  }

  /** A chat history never carries a system message, so the posted list
      has exactly one, and it is first. */
  lemma OneSystemMessage(prompt: string, messages: seq<Message>)
    requires forall i :: 0 <= i < |messages| ==> messages[i].role != "system"
    ensures var r := OllamaMessages(prompt, messages);
            forall i :: 0 <= i < |r| ==> (r[i].role == "system" <==> i == 0)
  {
    var r := OllamaMessages(prompt, messages);
    forall i | 0 <= i < |r|
      ensures r[i].role == "system" <==> i == 0
    {
      if i > 0 {
        assert r[i] == r[1..][i - 1] == messages[i - 1];
      }
    }
  }

  class Chat {
    const redis: Redis
    const user: User
    const redisKey: string
    var history: seq<Message>
    var systemPrompt: Option<string>

    predicate Valid()
      reads this, redis
    {
      redisKey == HistoryKey(user.userId) && redis.Valid()
    }

    /** `Chat(user)`: the stored history when there is one (even `[]`),
        else a fresh chat initialised from the welcome stream. */
    constructor (redis: Redis, user: User, file: Option<string>, welcome: Upstream)
      requires redis.Valid()
      modifies redis
      ensures Valid() && this.redis == redis && this.user == user
      ensures HasStoredHistory(old(redis.data), HistoryKey(user.userId)) ==>
                history == StoredHistory(old(redis.data), HistoryKey(user.userId)) && redis.data == old(redis.data)
                && systemPrompt == None
      ensures !HasStoredHistory(old(redis.data), HistoryKey(user.userId)) ==>
                history == [Message("assistant", Strip(WelcomeText(welcome)))]
                && redis.data == old(redis.data)[HistoryKey(user.userId) := Serialized(history)]
                && systemPrompt == Some(ModelPrompt(None, file))
    {
      this.redis := redis;
      this.user := user;
      redisKey := HistoryKey(user.userId);
      systemPrompt := None;
      history := [];
      new;
      var h := Load(file, welcome);
    }

    /** `_llm_call(messages)` up to `requests.post`: it loads the prompt
        once and returns the messages it posts. */
    method LlmCall(messages: seq<Message>, file: Option<string>) returns (request: seq<Message>)
      modifies this`systemPrompt
      ensures systemPrompt == Some(ModelPrompt(old(systemPrompt), file))
      ensures request == OllamaMessages(systemPrompt.value, messages)
    {
      if systemPrompt.None? {
        if file.Some? {
          systemPrompt := Some(Strip(file.value));
        } else {
          systemPrompt := Some(FALLBACK_PROMPT);
        }
      }
      request := [Message("system", systemPrompt.value)] + messages;
    }

    /** `_init_chat()`: the welcome request is made, and the history
        becomes the one stripped welcome message, saved. */
    method InitChat(file: Option<string>, welcome: Upstream) returns (h: seq<Message>)
      requires Valid()
      modifies this`history, this`systemPrompt, redis
      ensures Valid()
      ensures systemPrompt == Some(ModelPrompt(old(systemPrompt), file))
      ensures h == history == [Message("assistant", Strip(WelcomeText(welcome)))]
      ensures redis.data == old(redis.data)[redisKey := Serialized(h)]
    {
      var request := LlmCall([Message("user", WELCOME_PROMPT)], file);
      var text := CollectWelcome(welcome);
      history := [Message("assistant", Strip(text))];
      Save();
      h := history;
    }

    /** `_load()`. */
    method Load(file: Option<string>, welcome: Upstream) returns (h: seq<Message>)
      requires Valid()
      modifies this`history, this`systemPrompt, redis
      ensures Valid() && h == history
      ensures HasStoredHistory(old(redis.data), redisKey) ==>
                history == StoredHistory(old(redis.data), redisKey) && redis.data == old(redis.data)
                && systemPrompt == old(systemPrompt)
      ensures !HasStoredHistory(old(redis.data), redisKey) ==>
                history == [Message("assistant", Strip(WelcomeText(welcome)))]
                && redis.data == old(redis.data)[redisKey := Serialized(history)]
                && systemPrompt == Some(ModelPrompt(old(systemPrompt), file))
    {
      var v := redis.Get(redisKey);
      if v.Some? && v.value.Serialized? {
        history := v.value.history;
      } else {
        var init := InitChat(file, welcome);
      }
      h := history;
    }

    /** `_save()`. */
    method Save()
      requires Valid()
      modifies redis
      ensures Valid()
      ensures redis.data == old(redis.data)[redisKey := Serialized(history)]
    {
      WriteKeepsWellFormed(redis.data, redisKey, Serialized(history));
      redis.Set(redisKey, Serialized(history));
    }

    /** `_add_message(content, role)`. */
    method AddMessage(content: string, role: string)
      requires Valid()
      modifies this`history, redis
      ensures Valid()
      ensures history == old(history) + [Message(role, content)]
      ensures redis.data == old(redis.data)[redisKey := Serialized(history)]
    {
      history := history + [Message(role, content)];
      Save();
    }

    /** `delete_history()`: the key is deleted and at once rewritten by a
        fresh chat, so a history always remains. */
    method DeleteHistory(file: Option<string>, welcome: Upstream) returns (h: seq<Message>)
      requires Valid()
      modifies this`history, this`systemPrompt, redis
      ensures Valid()
      ensures h == history == [Message("assistant", Strip(WelcomeText(welcome)))]
      ensures redis.data == old(redis.data)[redisKey := Serialized(h)]
      ensures HasStoredHistory(redis.data, redisKey)
      ensures systemPrompt == Some(ModelPrompt(old(systemPrompt), file))
    {
      WriteKeepsWellFormed(redis.data, redisKey, Text(""));
      redis.Delete(redisKey);
      h := InitChat(file, welcome);
      assert redis.data == old(redis.data)[redisKey := Serialized(h)];
    }

    /** `process_message(content)` up to `requests.post`: the user message
        is saved, and the whole history, behind the system message, is
        posted. */
    method ProcessMessage(content: string, file: Option<string>) returns (request: seq<Message>)
      requires Valid()
      modifies this`history, this`systemPrompt, redis
      ensures Valid()
      ensures history == old(history) + [Message("user", content)]
      ensures redis.data == old(redis.data)[redisKey := Serialized(history)]
      ensures systemPrompt == Some(ModelPrompt(old(systemPrompt), file))
      ensures request == OllamaMessages(systemPrompt.value, history)
    {
      AddMessage(content, "user");
      request := LlmCall(history, file);
    }
  }
}

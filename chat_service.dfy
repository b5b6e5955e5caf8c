/** The per-user chat service (`ChatService`): the in-memory history and
    system-prompt cache of one request, kept in step with the Redis keys
    `chat_history:<id>` and `chat_prompt:<id>`.

    The default prompt file is an input: `Some(text)` when
    `/flask/default_prompt.txt` can be read, `None` when opening or reading
    it raises. The LLM call at the end of `process_message` and
    `get_welcome_message` is not made here; both return the history and the
    prompt they would hand to it. */
module ChatServices {
  import opened Common
  import opened Store
  import opened Users

  const FALLBACK_PROMPT: string := "You are a helpful AI assistant."
  const WELCOME_REQUEST: string := "Please provide a brief, welcoming message."

  /** The prompt `get_prompt` settles on, and what it writes to the prompt
      key (`None`: nothing). */
  datatype PromptChoice = PromptChoice(prompt: string, write: Option<string>)

  /** `get_prompt()` for a cache, the text stored at the prompt key (`""`
      when absent) and the default file. */
  function ResolvePrompt(cache: Option<string>, stored: string, file: Option<string>): PromptChoice {
    if cache.Some? then PromptChoice(cache.value, None)
    else if stored != "" then PromptChoice(stored, None)
    else if file.Some? then PromptChoice(Strip(file.value), Some(Strip(file.value)))
    else PromptChoice(FALLBACK_PROMPT, None)
  }

  /** The store after `get_prompt` made the choice `c` with its prompt
      key `key`. */
  function PromptWritten(data: map<string, Value>, key: string, c: PromptChoice): map<string, Value> {
    if c.write.Some? then data[key := Text(c.write.value)] else data
  }

  /** The precedence of `get_prompt`: the cache, then a non-empty stored
      prompt, then the stripped default file (which is also stored), then
      the built-in fallback (which is not); only the file's text is ever
      written. It spells out `ResolvePrompt` case by case, as a readable
      statement of the order; `PromptCached` and `SetThenGet` go beyond it. */
  lemma PromptPrecedence(cache: Option<string>, stored: string, file: Option<string>)
    ensures var c := ResolvePrompt(cache, stored, file);
            && (cache.Some? ==> c == PromptChoice(cache.value, None))
            && (cache.None? && stored != "" ==> c == PromptChoice(stored, None))
            && (cache.None? && stored == "" && file.Some? ==> c.prompt == Strip(file.value) && c.write == Some(c.prompt))
            && (cache.None? && stored == "" && file.None? ==> c == PromptChoice(FALLBACK_PROMPT, None))
            && (c.write.Some? ==> c.write == Some(c.prompt) && file.Some? && c.prompt == Strip(file.value))
  {
  }

  /** Once resolved, the prompt is cached: a second `get_prompt` returns
      the same text without consulting store or file, whatever they hold
      by then. */
  lemma PromptCached(cache: Option<string>, stored: string, file: Option<string>, stored2: string, file2: Option<string>)
    ensures var p := ResolvePrompt(cache, stored, file).prompt;
            ResolvePrompt(Some(p), stored2, file2) == PromptChoice(p, None)
  {
  }

  /** A prompt set with `set_prompt` survives into a later request (a
      fresh cache) only when it is not empty after stripping: an empty
      stored prompt is falsy, and the default file is used again. */
  lemma SetPromptSurvives(data: map<string, Value>, key: string, newPrompt: string, file: Option<string>)
    ensures var after := data[key := Text(Strip(newPrompt))];
            var c := ResolvePrompt(None, StoredText(after, key), file);
            && (Strip(newPrompt) != "" ==> c == PromptChoice(Strip(newPrompt), None))
            && (Strip(newPrompt) == "" ==> c == ResolvePrompt(None, "", file))
  {
  }

  class ChatService {
    const redis: Redis
    const user: User
    const historyKey: string
    const promptKey: string
    var history: seq<Message>
    var systemPrompt: Option<string>

    predicate Valid()
      reads this, redis
    {
      && historyKey == HistoryKey(user.userId)
      && promptKey == PromptKey(user.userId)
      && redis.Valid()
    }

    /** `ChatService(redis_client, user)`: the keys, an empty cache, and
        the stored history loaded. */
    constructor (redis: Redis, user: User)
      requires redis.Valid()
      ensures Valid() && this.redis == redis && this.user == user
      ensures history == StoredHistory(redis.data, HistoryKey(user.userId)) && systemPrompt == None
    {
      this.redis := redis;
      this.user := user;
      historyKey := HistoryKey(user.userId);
      promptKey := PromptKey(user.userId);
      systemPrompt := None;
      new;
      var found := LoadHistory();
    }

    /** `load_history()`: an absent or empty stored value gives `[]`; the
        result says whether the history is non-empty. */
    method LoadHistory() returns (found: bool)
      requires Valid()
      modifies this`history
      ensures Valid()
      ensures history == StoredHistory(redis.data, historyKey)
      ensures found <==> history != []
    {
      var v := redis.Get(historyKey);
      if v.Some? && v.value.Serialized? {
        history := v.value.history;
      } else {
        history := [];
      }
      found := history != [];
    }

    /** `save_history()`: the history key holds the in-memory history. */
    method SaveHistory()
      requires Valid()
      modifies redis
      ensures Valid()
      ensures redis.data == old(redis.data)[historyKey := Serialized(history)]
    {
      WriteKeepsWellFormed(redis.data, historyKey, Serialized(history));
      redis.Set(historyKey, Serialized(history));
    }

    /** `clear_history()`: only the history key is deleted. */
    method ClearHistory()
      requires Valid()
      modifies this`history, redis
      ensures Valid()
      ensures history == [] && redis.data == old(redis.data) - {historyKey}
      ensures promptKey in old(redis.data) ==> promptKey in redis.data && redis.data[promptKey] == old(redis.data)[promptKey]
    {
      KeysApart(user.userId, user.userId);
      WriteKeepsWellFormed(redis.data, historyKey, Text(""));
      redis.Delete(historyKey);
      history := [];
    }

    /** `add_message(content, role)`: one entry at the end, then saved. */
    method AddMessage(content: string, role: string)
      requires Valid()
      modifies this`history, redis
      ensures Valid()
      ensures history == old(history) + [Message(role, content)]
      ensures redis.data == old(redis.data)[historyKey := Serialized(history)]
      ensures StoredHistory(redis.data, historyKey) == history
    {
      history := history + [Message(role, content)];
      SaveHistory();
    }

    /** `get_prompt()`, with the default file's text (if readable). */
    method GetPrompt(file: Option<string>) returns (prompt: string)
      requires Valid()
      modifies this`systemPrompt, redis
      ensures Valid()
      ensures var c := ResolvePrompt(old(systemPrompt), StoredText(old(redis.data), promptKey), file);
              && prompt == c.prompt && systemPrompt == Some(prompt)
              && redis.data == PromptWritten(old(redis.data), promptKey, c)
    {
      if systemPrompt.None? {
        var stored := redis.Get(promptKey);
        if stored.Some? && stored.value.Text? && stored.value.text != "" {
          systemPrompt := Some(stored.value.text);
        } else if file.Some? {
          systemPrompt := Some(Strip(file.value));
          KeysApart(user.userId, user.userId);
          WriteKeepsWellFormed(redis.data, promptKey, Text(Strip(file.value)));
          redis.Set(promptKey, Text(Strip(file.value)));
        } else {
          systemPrompt := Some(FALLBACK_PROMPT);
        }
      }
      prompt := systemPrompt.value;
    }

    /** `set_prompt(new_prompt)`: the stripped text is cached, stored and
        returned. */
    method SetPrompt(newPrompt: string) returns (prompt: string)
      requires Valid()
      modifies this`systemPrompt, redis
      ensures Valid()
      ensures prompt == Strip(newPrompt) && systemPrompt == Some(prompt)
      ensures redis.data == old(redis.data)[promptKey := Text(prompt)]
    {
      systemPrompt := Some(Strip(newPrompt));
      KeysApart(user.userId, user.userId);
      WriteKeepsWellFormed(redis.data, promptKey, Text(Strip(newPrompt)));
      redis.Set(promptKey, Text(Strip(newPrompt)));
      prompt := systemPrompt.value;
    }

    /** `process_message(content)`, up to the LLM call: the user message
        is appended and saved before the prompt is resolved, and the
        history handed on ends with it. */
    method ProcessMessage(content: string, file: Option<string>) returns (messages: seq<Message>, prompt: string)
      requires Valid()
      modifies this`history, this`systemPrompt, redis
      ensures Valid()
      ensures messages == history == old(history) + [Message("user", content)]
      ensures StoredHistory(redis.data, historyKey) == history
      ensures var c := ResolvePrompt(old(systemPrompt), StoredText(old(redis.data), promptKey), file);
              && prompt == c.prompt && systemPrompt == Some(prompt)
              && redis.data == PromptWritten(old(redis.data)[historyKey := Serialized(history)], promptKey, c)
    {
      AddMessage(content, "user");
      KeysApart(user.userId, user.userId);
      assert StoredText(redis.data, promptKey) == StoredText(old(redis.data), promptKey);
      prompt := GetPrompt(file);
      messages := history;
    }

    /** `get_welcome_message()`, up to the LLM call: the fixed request,
        without the history. */
    method GetWelcomeMessage(file: Option<string>) returns (messages: seq<Message>, prompt: string)
      requires Valid()
      modifies this`systemPrompt, redis
      ensures Valid()
      ensures messages == [Message("user", WELCOME_REQUEST)] && history == old(history)
      ensures var c := ResolvePrompt(old(systemPrompt), StoredText(old(redis.data), promptKey), file);
              && prompt == c.prompt && systemPrompt == Some(prompt)
              && redis.data == PromptWritten(old(redis.data), promptKey, c)
    {
      prompt := GetPrompt(file);
      messages := [Message("user", WELCOME_REQUEST)];
    }

    /** `initialize_chat_with_message(welcome)`: the history is the one
        assistant message, saved. */
    method InitializeChatWithMessage(welcome: string) returns (h: seq<Message>)
      requires Valid()
      modifies this`history, redis
      ensures Valid()
      ensures h == history == [Message("assistant", welcome)]
      ensures redis.data == old(redis.data)[historyKey := Serialized(h)]
    {
      history := [Message("assistant", welcome)];
      SaveHistory();
      h := history;
    }
  }

  /** A prompt set on a service is what that service's next `get_prompt`
      returns, whatever the store and the default file hold. */
  method SetThenGet(svc: ChatService, newPrompt: string, file: Option<string>) returns (got: string)
    requires svc.Valid()
    modifies svc, svc.redis
    ensures got == Strip(newPrompt)
    ensures StoredText(svc.redis.data, svc.promptKey) == got
  {
    var stored := svc.SetPrompt(newPrompt);
    got := svc.GetPrompt(file);
  }
}

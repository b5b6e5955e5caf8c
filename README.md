# Chat sandbox core, modelled in Dafny

This project models the sequential logic of a Flask + Redis + Ollama chat
sandbox, and the browser code that shows its answers. It covers:

- the browser's server-sent-events reader (`StreamProcessor`);
- its token batching buffer (`TokenBuffer`);
- the server relays that turn Ollama's NDJSON stream into SSE events and
  persist the answer (`routes/chat.py`);
- the per-user history and prompt store (`ChatService`, and the older
  `Chat` of `models.py`) over Redis;
- request preparation and answer classification for Ollama (`LLMService`);
- sandbox identities and `auth()`;
- the model radio group and send guard of `ChatManager`.

Each stateful source class is a Dafny `class` whose methods are proved
against pure specification functions; the properties the source promises
are lemmas about those functions.

Modules, one per file:

| file | module | models |
|---|---|---|
| common.dfy | `Common` | `Option`, `Result`, `Message`; `strip`/`trim`, `indexOf`, string concatenation |
| token_buffer.dfy | `TokenBuffers` | `static/js/stream/TokenBuffer.js` |
| stream_processor.dfy | `StreamProcessors` | `static/js/stream/StreamProcessor.js` |
| ndjson.dfy | `Ndjson` | the NDJSON lines as the relays read them |
| store.dfy | `Store` | the Redis map and the per-user keys |
| user_service.dfy | `Users` | `services/user_service.py` (and the identical `User` of `models.py`) |
| auth.dfy | `Auth` | `routes/auth.py` |
| llm_service.dfy | `LlmServices` | `services/llm_service.py` |
| chat_service.dfy | `ChatServices` | `services/chat_service.py` |
| chat_routes.dfy | `ChatRoutes` | `routes/chat.py` |
| models.dfy | `Models` | `Chat` of `models.py` |
| chat_manager.dfy | `ChatManagers` | `static/js/ChatManager.js` |

Abstractions:

- Every input from outside is a parameter. That covers the Redis contents,
  the answers of Ollama, the chunks the browser reads, the default prompt
  file (`Some(text)` when it can be read), and the random draws.
- `JSON.parse` in the browser is an oracle `string -> Option<string>`.
  - `None` means the parse threw.
  - `Some(c)` carries the `content` field, with `""` when it is missing or falsy.
- A server-side NDJSON line is classified by what the relay loop does with it.
  - `Blank` is an empty line.
  - `Unparseable` covers lines where `json.loads` raises.
  - `Misshapen(e)` is a line that parses, but then reading `message.content` raises `e`.
  - `Chunk(content)` is a well-formed chunk.
- A history written with `json.dumps` is read back unchanged by `json.loads`,
  so Redis holds the history itself (`Serialized`) or a text.
- Timers are a `timerPending` flag plus an explicit `Fire` event.
- DOM spans, chat bubbles and requests sent are sequences.
- The `selected` CSS class of the radio options is an array of flags.

## Model

| member | source | states |
|---|---|---|
| Common.StripIsTrimmedInfix | flask/app/static/js/stream/StreamProcessor.js:60 | `Strip(s)` is a contiguous infix of `s` with no whitespace at either end, and only whitespace is cut off around it |
| Common.StripEmptyIffAllSpace | flask/app/static/js/stream/StreamProcessor.js:60 | `line.trim() === ''` exactly when every character of the line is whitespace |
| Common.Utf16Length | flask/app/static/js/stream/TokenBuffer.js:25 | the JavaScript `length` of a string: at least its number of characters and at most twice it, and equal to it exactly when no character lies outside the Basic Multilingual Plane |
| Common.IndexOf | flask/app/static/js/stream/StreamProcessor.js:48-49 | `indexOf('\n')` is -1 iff there is no newline; otherwise it is the position of the first one |
| TokenBuffers.FlushSpec | flask/app/static/js/stream/TokenBuffer.js:35-48 | flush loses and reorders nothing, and emits the pending text as one span only when it is non-empty; afterwards nothing is pending and no timer is armed |
| TokenBuffers.AppendSpec | flask/app/static/js/stream/TokenBuffer.js:21-33 | append adds exactly the text to emitted + pending; afterwards the buffer is empty or its JavaScript `length` (UTF-16 code units) is below `minChunkSize`; a non-empty buffer has a timer; an append that leaves the buffer's UTF-16 length below the threshold emits nothing and arms one when none is pending and keeps it otherwise; the content div exists |
| TokenBuffers.ClearSpec | flask/app/static/js/stream/TokenBuffer.js:50-56 | clear empties the buffer and cancels the timer without emitting anything |
| TokenBuffers.CompleteSpec | flask/app/static/js/stream/TokenBuffer.js:58-63 | after complete, the spans are everything accepted, nothing is pending, no timer is armed, and the loading dots are gone |
| TokenBuffers.InitializeContentIdempotent | flask/app/static/js/stream/TokenBuffer.js:13-19 | the content div is created at most once: initialising twice equals initialising once, and nothing else changes |
| TokenBuffers.AppendAllSpec | flask/app/static/js/stream/TokenBuffer.js:21-41 | a run of appends keeps the invariant; the emitted spans followed by the pending buffer equal everything appended, in order |
| TokenBuffers.ApplySpec | flask/app/static/js/stream/TokenBuffer.js:21-63 | any event except `clear` (append, timer, flush, complete) keeps the invariant and adds exactly the text it appends |
| TokenBuffers.RunLossless | flask/app/static/js/stream/TokenBuffer.js:21-63 | with no `clear`, any interleaving of appends, timer firings, flushes and completions shows emitted + pending == appended text |
| TokenBuffers.AppendAllConcat | flask/app/static/js/stream/TokenBuffer.js:21-33 | appending `a + b` is appending `a` and then `b` |
| TokenBuffers.TokenBuffer.constructor | flask/app/static/js/stream/TokenBuffer.js:2-11 | an empty buffer, no timer, no content div, no spans, loading dots shown |
| TokenBuffers.TokenBuffer.InitializeContent | flask/app/static/js/stream/TokenBuffer.js:13-19 | the state becomes `WithContent` of the old one |
| TokenBuffers.TokenBuffer.Flush | flask/app/static/js/stream/TokenBuffer.js:35-48 | the state becomes `Flushed` of the old one, which keeps the invariant |
| TokenBuffers.TokenBuffer.Append | flask/app/static/js/stream/TokenBuffer.js:21-33 | the state becomes `Appended(old, text)`, flushing once the buffer's UTF-16 length reaches `minChunkSize`, which keeps the invariant |
| TokenBuffers.TokenBuffer.Fire | flask/app/static/js/stream/TokenBuffer.js:31 | the armed timer's callback flushes; it does nothing without a pending timer |
| TokenBuffers.TokenBuffer.Clear | flask/app/static/js/stream/TokenBuffer.js:50-56 | the state becomes `Cleared` of the old one |
| TokenBuffers.TokenBuffer.Complete | flask/app/static/js/stream/TokenBuffer.js:58-63 | the state becomes `Completed` of the old one |
| StreamProcessors.SplitLinesSpec | flask/app/static/js/stream/StreamProcessor.js:47-56 | splitting off lines is lossless and ordered: the lines, each followed by `'\n'`, then the residue, give back the text; no line and no residue holds a newline |
| StreamProcessors.SplitUnique | flask/app/static/js/stream/StreamProcessor.js:47-56 | the line split of a text is the only one with newline-free lines and residue |
| StreamProcessors.SplitAppend | flask/app/static/js/stream/StreamProcessor.js:44-56 | splitting `s + t` is splitting `s`, then splitting its residue followed by `t` |
| StreamProcessors.LineStepSpec | flask/app/static/js/stream/StreamProcessor.js:59-84 | blank lines, non-`data: ` lines and `data: [DONE]` change neither `dataBuffer` nor the token buffer. Any other payload (the line minus its 6-character prefix) is appended to `dataBuffer`. `dataBuffer` is reset exactly when the accumulated text parses with non-empty content, and exactly that content is handed on; a parse failure is swallowed |
| StreamProcessors.FeedAppend | flask/app/static/js/stream/StreamProcessor.js:55 | processing lines `a + b` is processing `a`, then `b` from where it left `dataBuffer`; the tokens concatenate in order |
| StreamProcessors.FeedSnoc | flask/app/static/js/stream/StreamProcessor.js:55 | one more line extends the token sequence by exactly that line's token |
| StreamProcessors.ChunkStepCompose | flask/app/static/js/stream/StreamProcessor.js:42-57 | two `processChunk` calls equal one call on the concatenated text |
| StreamProcessors.ChunkingIrrelevant | flask/app/static/js/stream/StreamProcessor.js:10-25 | over a whole read loop, where the chunks are cut does not matter: the outcome is that of the concatenated text |
| StreamProcessors.DoneFrameIsInert | flask/app/static/js/stream/StreamProcessor.js:64-67 | the server's closing `data: [DONE]\n\n` frame hands no content on and leaves `dataBuffer` and the line buffer unchanged |
| StreamProcessors.RenderedStream | flask/app/static/js/stream/StreamProcessor.js:10-40 | a fresh processor and token buffer over a stream that ends normally show, once complete, exactly the concatenated contents, with nothing pending and no loading dots; this does not depend on how the stream was chunked |
| StreamProcessors.StreamProcessor.constructor | flask/app/static/js/stream/StreamProcessor.js:2-8 | empty line buffer and `dataBuffer`, no line seen, no completion yet |
| StreamProcessors.StreamProcessor.ProcessLine | flask/app/static/js/stream/StreamProcessor.js:59-84 | `dataBuffer` and the token buffer move exactly as `LineStep` says; the line buffer is untouched |
| StreamProcessors.StreamProcessor.ProcessChunk | flask/app/static/js/stream/StreamProcessor.js:42-57 | afterwards the buffer holds no `'\n'`; the lines handed to `processLine`, each followed by `'\n'`, then the new buffer, equal the old buffer plus the text; the state is `ChunkStep` of the old one |
| StreamProcessors.StreamProcessor.HandleStreamEnd | flask/app/static/js/stream/StreamProcessor.js:27-40 | a non-empty `dataBuffer` gets one last parse, and its content (if any) is appended; `complete()` is called exactly once; no parse failure escapes |
| StreamProcessors.StreamProcessor.ProcessStream | flask/app/static/js/stream/StreamProcessor.js:10-25 | every chunk is processed in order. On `done`, `handleStreamEnd` runs once; a failing read propagates with no completion |
| Ndjson.ContentsAppend | flask/app/routes/chat.py:86-96 | reading `a + b` is reading `a` and then, unless `a` raised, reading `b` |
| Ndjson.ContentsNonEmpty | flask/app/routes/chat.py:90 | every collected content is non-empty |
| Ndjson.NoiseSkipped | flask/app/routes/chat.py:86-96 | a blank or unparseable line changes neither the contents nor the failure |
| Ndjson.MisshapenStops | flask/app/routes/chat.py:89-102 | a line whose `message` cannot be read ends the loop: nothing after it is collected, and its error is the failure |
| Store.HistoryKey | flask/app/services/chat_service.py:14 | the history key is `"chat_history:"` followed by the user id |
| Store.PromptKey | flask/app/services/chat_service.py:16 | the prompt key is `"chat_prompt:"` followed by the user id |
| Store.KeysApart | flask/app/services/chat_service.py:14-16 | no history key is ever a prompt key, whatever the users |
| Store.KeysInjective | flask/app/services/chat_service.py:14-16 | distinct users never share a key |
| Store.WriteKeepsWellFormed | flask/app/services/chat_service.py:34 | writing a history, or a text to a non-history key, keeps every history key holding a history or `""` |
| Store.HistoryRoundTrip | flask/app/services/chat_service.py:24-35 | a history read back after it is written is that history, and no other key's reading changes |
| Store.Redis.Get | flask/app/services/chat_service.py:26 | the value at the key, or `None` |
| Store.Redis.Set | flask/app/services/chat_service.py:34 | exactly the key is overwritten |
| Store.Redis.Delete | flask/app/services/chat_service.py:40 | exactly the key is removed |
| Users.RandomId | flask/app/services/user_service.py:13-16 | a generated id has length 8; its `i`-th character is the `i`-th draw from `"1234567890abcdef"` |
| Users.NewUser | flask/app/services/user_service.py:8-11 | a non-empty given id is kept, an absent or empty one is replaced by a generated id; e-mail is id + `"@sandbox.com"` |
| Users.FromSession | flask/app/services/user_service.py:18-22 | `None` iff the session lacks a non-empty `user_id`; otherwise the user with that id and its e-mail |
| Users.LoginRoundTrip | flask/app/services/user_service.py:24-27 | after `login`, `from_session` gives the same user back, and no other session key changes |
| Users.Session.Login | flask/app/services/user_service.py:24-27 | exactly `user_id` and `user_email` are set, to the user's id and e-mail |
| Auth.ChooseUser | flask/app/routes/auth.py:17-27 | a non-empty `user_id` URL parameter wins; otherwise no session id means a fresh random user; otherwise the session's id is reused. The result always has a non-empty id and the derived e-mail |
| Auth.AuthIsSticky | flask/app/routes/auth.py:17-30 | once a request is authenticated, later requests without a URL parameter act for the same user, whatever their random draws |
| Auth.Authenticate | flask/app/routes/auth.py:5-30 | returns the chosen user (never `None`), and the session then holds its id and e-mail |
| LlmServices.CheckOllamaStatus | flask/app/services/llm_service.py:27-56 | the test flags decide first, "down" before "no model". The check passes iff the tags answer is 200 with a non-empty model list; every failure is a `ValueError` |
| LlmServices.FlagsComeFirst | flask/app/services/llm_service.py:33-40 | with a test flag set, the outcome does not depend on the daemon's answer (no request matters) |
| LlmServices.GetAvailableModels | flask/app/services/llm_service.py:13-23 | success iff the tags answer is 200; then the names, in listed order; every failure is a `ValueError` starting `"Failed to fetch available models: "` |
| LlmServices.NewService | flask/app/services/llm_service.py:58-73 | a service exists iff the health check passes, with the given model and prompt; else the check's error |
| LlmServices.SystemPromptPrepended | flask/app/services/llm_service.py:78-123 | a system message is prepended iff the prompt is non-empty; the caller's messages follow unchanged |
| LlmServices.Request | flask/app/services/llm_service.py:84-138 | the request uses the service's model and the given stream flag; its messages are the caller's, in order, as a suffix, behind exactly one extra system message carrying the prompt iff the prompt is non-empty |
| LlmServices.RequestsDifferOnlyInStream | flask/app/services/llm_service.py:84-131 | the streaming request sets `stream` true and the sync one false; nothing else differs |
| LlmServices.StreamOutcome | flask/app/services/llm_service.py:99-108 | the response is returned iff its status is 200; a non-200 status or a transport error is a `ValueError` starting `"Failed to generate response: "` |
| LlmServices.NotFoundAsWrittenRepeats | flask/app/services/llm_service.py:145-151 | as written, the 404 message with a fetched model list names the model twice (see Findings) |
| LlmServices.NotFoundMessageNamesModelOnce | flask/app/services/llm_service.py:145-151 | the intended 404 message names the model once, followed by the list; it differs from the as-written one |
| LlmServices.SyncOutcome | flask/app/services/llm_service.py:140-163 | as written: success iff the answer is not 4xx/5xx and carries `message.content`, which is returned. A 404 is the twice-wrapped `ValueError` (`Model 'm' not found and ...`), any other 4xx/5xx the `HTTPError`, a missing `message.content` the "Unexpected response format" `ValueError`, undecodable JSON the decode error, a failed request its error |
| LlmServices.SyncOutcomeIntended | flask/app/services/llm_service.py:144-151 | the intended outcome equals the as-written one except on a 404, whose `ValueError` names the model once and then the list; with a fetched list it differs from what the code raises |
| ChatServices.PromptPrecedence | flask/app/services/chat_service.py:51-70 | `get_prompt` order: cached, then a non-empty stored prompt, then the stripped default file (also stored), then the built-in fallback (not stored). Only the file's text is ever written |
| ChatServices.PromptCached | flask/app/services/chat_service.py:54 | a second `get_prompt` returns the same value without consulting store or file |
| ChatServices.SetPromptSurvives | flask/app/services/chat_service.py:52-78 | a prompt set with `set_prompt` is what a later service reads from the store, unless it is empty after stripping |
| ChatServices.ChatService.constructor | flask/app/services/chat_service.py:10-21 | keys derived from the user id, empty prompt cache, history loaded from the store |
| ChatServices.ChatService.LoadHistory | flask/app/services/chat_service.py:24-29 | the history is the stored one, or `[]` when absent or empty; the result is true iff the history is non-empty |
| ChatServices.ChatService.SaveHistory | flask/app/services/chat_service.py:31-35 | exactly the history key is written, with the in-memory history |
| ChatServices.ChatService.ClearHistory | flask/app/services/chat_service.py:37-42 | only the history key is deleted and the in-memory history emptied; the prompt key is unchanged |
| ChatServices.ChatService.AddMessage | flask/app/services/chat_service.py:44-49 | exactly one `{role, content}` is appended at the end, earlier entries untouched, and the store then holds the new history |
| ChatServices.ChatService.GetPrompt | flask/app/services/chat_service.py:51-70 | the returned prompt, the new cache and the store are those of `ResolvePrompt` |
| ChatServices.ChatService.SetPrompt | flask/app/services/chat_service.py:72-78 | the stripped text is cached, stored at the prompt key and returned |
| ChatServices.ChatService.ProcessMessage | flask/app/services/chat_service.py:80-87 | the user message is appended and saved before the prompt is resolved; the history handed on ends with it; the prompt and the new cache are `ResolvePrompt`'s, and the store changes in exactly the history key and the prompt write `get_prompt` may make |
| ChatServices.ChatService.GetWelcomeMessage | flask/app/services/chat_service.py:89-95 | the fixed welcome request, without the history, with the resolved prompt, which is also cached; the history is untouched and the store changes only by the prompt write `get_prompt` may make |
| ChatServices.ChatService.InitializeChatWithMessage | flask/app/services/chat_service.py:97-105 | the history becomes the single assistant message, saved and returned |
| ChatServices.SetThenGet | flask/app/services/chat_service.py:52-78 | after `set_prompt`, `get_prompt` returns the stripped text, and the store holds it |
| ChatRoutes.RelayShape | flask/app/routes/chat.py:83-106 | every relayed stream ends with exactly one `[DONE]`. Before it there is exactly one error event iff reading raised. The rest are the non-empty contents, one event each, in input order |
| ChatRoutes.RelayedTextIsCollected | flask/app/routes/chat.py:91-93 | the collected response is the concatenation of the emitted contents |
| ChatRoutes.RelayIgnoresNoise | flask/app/routes/chat.py:86-96 | blank and unparseable lines produce no event and no error |
| ChatRoutes.Relay | flask/app/routes/chat.py:84-106 | the loop yields exactly `RelayEvents`, collects exactly `Collected`, and ends with the first raised error, if any |
| ChatRoutes.Welcome | flask/app/routes/chat.py:9-49 | a 500 with the error when the stream request fails. Otherwise the relayed stream; the history becomes the stripped collected text only when reading ended normally and the text is non-empty, and is untouched otherwise. On every path the prompt is resolved and cached first, and the store changes only by that prompt write and, when the history is replaced, the history key |
| ChatRoutes.ChatGet | flask/app/routes/chat.py:61-67 | 200 with the reloaded history and whether it is non-empty |
| ChatRoutes.ChatDelete | flask/app/routes/chat.py:69-74 | 200 `success`; the history is gone from memory and store |
| ChatRoutes.ChatPost | flask/app/routes/chat.py:76-116 | a missing body or prompt answers 500 and changes nothing: not the history, the prompt cache or the store. Otherwise the prompt is resolved and cached, the store changes in exactly the history key and the prompt write `get_prompt` may make, and the user message is saved first, and stays even when the stream request then fails with a 500. After a stream, the stripped answer is appended as assistant message only if it is non-empty and reading ended normally |
| ChatRoutes.ApiChatMessages | flask/app/routes/chat.py:131-140 | no messages iff the body is missing or lacks `prompt`. Otherwise a system message first iff `system_prompt` is present, followed by exactly one user message |
| ChatRoutes.ApiChat | flask/app/routes/chat.py:129-151 | 400 "Missing prompt in request" iff there are no messages; 200 with the answer iff the LLM call succeeds; else 500 with its error |
| ChatRoutes.BadRequestMakesNoCall | flask/app/routes/chat.py:130-134 | a 400 answer is the same whatever the LLM would say, so no call is made |
| Models.WelcomeText | flask/app/models.py:58-70 | the welcome text is the concatenation of the non-empty chunk contents, with malformed lines skipped; any exception replaces the whole text with `"Hello! How can I help you today?"` |
| Models.WelcomeIgnoresNoise | flask/app/models.py:61-67 | blank and unparseable lines do not change the welcome text |
| Models.CollectWelcome | flask/app/models.py:58-70 | the loop computes exactly `WelcomeText` |
| Models.ModelPrompt | flask/app/models.py:118-126 | cached prompt, else the stripped file text (even empty), else `"You are a helpful AI assistant."` |
| Models.ModelPromptLoadedOnce | flask/app/models.py:119 | once loaded, the prompt no longer depends on the file |
| Models.OllamaMessages | flask/app/models.py:131-133 | one system message with the prompt, then the given messages unchanged |
| Models.OneSystemMessage | flask/app/models.py:129-134 | a history without system messages is posted with exactly one, first |
| Models.Chat.constructor | flask/app/models.py:44-50 | history key from the user id; the stored history if present (even `[]`), else a fresh chat from the welcome stream; the prompt cache stays empty with a stored history and holds the loaded prompt after a fresh chat |
| Models.Chat.LlmCall | flask/app/models.py:115-141 | the prompt is loaded once and cached; the posted messages are `OllamaMessages` of it |
| Models.Chat.InitChat | flask/app/models.py:52-76 | afterwards the history is exactly one assistant message with the stripped welcome text, and it is saved |
| Models.Chat.Load | flask/app/models.py:78-86 | a stored non-empty value is used as is, with store and cache untouched; otherwise a fresh chat is initialised and saved, and the prompt cache is `ModelPrompt` of the old one |
| Models.Chat.Save | flask/app/models.py:88-90 | the history key holds the history |
| Models.Chat.AddMessage | flask/app/models.py:92-95 | one entry appended, then saved |
| Models.Chat.DeleteHistory | flask/app/models.py:101-104 | the key is deleted and rewritten at once by a fresh chat, so a history always remains; the prompt cache is then loaded |
| Models.Chat.ProcessMessage | flask/app/models.py:106-112 | the user message is saved, then the whole history is posted behind the system message; the prompt is loaded into the cache once and reused |
| ChatManagers.Selection | flask/app/static/js/ChatManager.js:64-72 | after `updateModelSelection(m)` an option is selected iff its model equals `m` |
| ChatManagers.SelectionAtMostOne | flask/app/static/js/ChatManager.js:64-72 | with distinct model names, selecting by name selects at most one option |
| ChatManagers.ClickSelectedClears | flask/app/static/js/ChatManager.js:92-94 | clicking the selected option leaves no option selected |
| ChatManagers.ClickUnselectedSelectsOnly | flask/app/static/js/ChatManager.js:96-100 | clicking an unselected option makes it the only selected one |
| ChatManagers.ClickKeepsAtMostOne | flask/app/static/js/ChatManager.js:91-102 | clicks preserve "at most one option selected" |
| ChatManagers.FirstSelectedSpec | flask/app/static/js/ChatManager.js:153-154 | there is a selected model iff some option is selected, and it is the earliest one's |
| ChatManagers.RadioGroup.constructor | flask/app/static/js/ChatManager.js:83-110 | one option per listed model, in order; for a new chat exactly the first option is selected, otherwise none |
| ChatManagers.RadioGroup.UpdateModelSelection | flask/app/static/js/ChatManager.js:64-73 | the flags become `Selection(models, m)` |
| ChatManagers.RadioGroup.Click | flask/app/static/js/ChatManager.js:91-102 | the flags become `ClickResult(old flags, i)` |
| ChatManagers.RadioGroup.SelectedModel | flask/app/static/js/ChatManager.js:153-154 | the model of the first selected option, or `None` |
| ChatManagers.ChatManager.constructor | flask/app/static/js/ChatManager.js:7-17 | an empty `currentPrompt`, not processing, the input enabled and empty, no bubbles, the dialog closed, nothing sent |
| ChatManagers.ChatManager.SetProcessingState | flask/app/static/js/ChatManager.js:190-193 | `isProcessing` is set and the input is enabled exactly when not processing |
| ChatManagers.ChatManager.SavePromptAndModel | flask/app/static/js/ChatManager.js:151-180 | with no selected (or an empty) model it returns false and sends nothing. Otherwise one save request with the trimmed text is sent. `currentPrompt` becomes the trimmed text and the dialog closes only when the save succeeds; any failure shows the notice and returns false |
| ChatManagers.ChatManager.SendMessage | flask/app/static/js/ChatManager.js:229-256 | a no-op when the trimmed input is empty or `isProcessing` is set. Otherwise the message is shown and sent, the input cleared, and the answer streamed into a fresh token buffer; any error shows the notice; `isProcessing` is reset at the end |
| ChatManagers.AnswerState | flask/app/static/js/ChatManager.js:240-252 | the answer bubble never keeps its loading dots once `sendMessage` is done |
| ChatManagers.StreamAnswer | flask/app/static/js/ChatManager.js:240-252 | a fresh buffer and processor read the whole answer; success iff nothing threw |
| ChatManagers.SentAnswerComplete | flask/app/static/js/ChatManager.js:240-247 | an answer that streams to its end shows exactly the concatenated contents, with nothing pending and no loading dots |

## Left out

- The network is not modelled. The `requests` calls to Ollama and the browser's `fetch` wrappers (`static/js/services/ChatService.js`) are inputs. A `requests.post` that itself raises in `models.py` `_llm_call` is not modelled.
- The Redis client is not modelled beyond a map from keys to values.
- JSON text grammar is left out. `json.dumps`/`json.loads` are the identity on histories, and `JSON.parse` is an oracle.
- `TextDecoder`: chunks arrive as decoded strings.
- The DOM, scrolling, `setTimeout` handles, and the 50 ms delay are left out. The delay is the external `Fire` event.
- The rest of `ChatManager.js` is left out: `showPromptModal` beyond the option list it builds (opening the dialog, the `getAvailableModels` request and its failure, loading the default prompt or the current configuration into the editor), `clearHistory`, `getWelcomeMessage`, the user dialog and `waitForPromptSave`. They are DOM wiring around calls the model already covers. `ChatUI.js` is presentation only.
- `routes/config.py`, `routes/model.py`, `routes/prompt.py`, `routes/__init__.py`, `routes.py`, `config.py` and `app/__init__.py` are not part of this model.
- `chat_service.py:87` and `chat.py:143` call `LLMService` methods as class-level functions, with signatures that differ from `llm_service.py`. Each file is modelled against its own contract. `ChatService` returns the messages and prompt it would hand on, and `api_chat`'s call is an input function.
- Logging, ddtrace and LLM observability are left out. So are `temperature`/`top_p`/`num_predict`/`num_ctx`, which pass through untouched.
- `random.choice` is an input function giving the draws.
- JavaScript `async` is modelled as sequential steps.
- Common.Strip: it removes ASCII whitespace only (space, tab, line feed, vertical tab, form feed, carriage return). JavaScript `trim` and Python `strip` also remove Unicode whitespace. Python `str.strip()` also removes the ASCII separators `\x1c`-`\x1f`, which `Strip` (like JavaScript `trim`) keeps, so the Python strips in `chat.py`, `chat_service.py` and `models.py` can differ from `Strip` even on ASCII text.
- LlmServices.GetAvailableModels: a model entry without `name` raises a `KeyError` inside the `try`, which the source wraps in the same `ValueError`. Entries are modelled as always having a name.
- ChatRoutes.ChatPost and ChatRoutes.ApiChat:
  - the JSON body is a map from strings to strings;
  - a non-object body is not modelled. A list body such as `["prompt"]` passes `api_chat`'s `'prompt' in data` check and then raises `TypeError`, which answers 500;
  - Flask's own rejection of a non-JSON request is not modelled;
  - the 500 text for a missing body is the `TypeError` text of subscripting `None`.
- ChatRoutes.Welcome, ChatRoutes.ChatGet, ChatRoutes.ChatDelete and ChatRoutes.ChatPost: exceptions raised by `auth()`, by the service constructor or by Redis before the response is returned, which the outer handlers turn into 500, are not modelled. The routes start from a built service.
- ChatRoutes.Welcome and ChatRoutes.ChatPost: a Redis error inside `generate()` (`initialize_chat_with_message` at `chat.py:37`, `add_message` at `chat.py:100`) is not modelled. In the source it becomes an error event before `[DONE]`, not a 500.
- ChatRoutes.Welcome and ChatRoutes.ChatPost: `flask.Response(generate())` runs the generator lazily. The model assumes the client reads the stream to its end. If the client stops reading, the generator is closed at a `yield`, and then no history is written and no `[DONE]` is sent.
- ChatRoutes.Relay: the SSE text of each event (`data: {...}\n\n`) is abstracted to the event itself.
- ChatServices.ChatService.GetPrompt: the prompt key is assumed to hold text. A history written at a prompt key reads as "nothing stored".
- StreamProcessors.StreamProcessor.ProcessStream: the `reader` and the `response` object are abstracted into the sequence of chunks and whether a read throws.
- ChatManagers.ChatManager.SendMessage: the reply of `ChatService.sendMessage` is one input, `None` when the `fetch` throws. That `fetch` goes to `/api/chat` (`services/ChatService.js:41-50`). Its reply is not checked and is streamed as is. A timer still armed after an error is not followed.

## Findings

| source | as written | input that shows it | evidently intended | confidence | as-written member | corrected member |
|---|---|---|---|---|---|---|
| flask/app/services/llm_service.py:145-151 | on a 404, the `ValueError` listing the available models is raised inside the `try` whose `except ValueError` wraps it again | model `m`, a 404 answer, model list `["a"]`: the message is `Model 'm' not found and Model 'm' not found. Available models: a` | `Model 'm' not found. Available models: a`; the `and ...` form is only for a failed model listing | high by proof; not executed | LlmServices.SyncOutcome, LlmServices.NotFoundMessageAsWritten, LlmServices.NotFoundAsWrittenRepeats | LlmServices.SyncOutcomeIntended, LlmServices.NotFoundMessage, LlmServices.NotFoundMessageNamesModelOnce |

/** The Redis store shared by the chat services, as an abstract map from
    string keys to values, and the per-user keys under which histories and
    system prompts live.

    With `decode_responses=True` Redis holds strings; a history is written
    as `json.dumps(history)` and read back with `json.loads`, which is the
    identity on histories, so a stored history is kept as the history
    itself (`Serialized`), and every other stored string as `Text`. */
module Store {
  import opened Common

  datatype Value = Text(text: string) | Serialized(history: seq<Message>)

  const HISTORY_PREFIX: string := "chat_history:"
  const PROMPT_PREFIX: string := "chat_prompt:"

  function HistoryKey(userId: string): (k: string)
    ensures StartsWith(k, HISTORY_PREFIX) && k[|HISTORY_PREFIX|..] == userId
  {
    HISTORY_PREFIX + userId
  }

  function PromptKey(userId: string): (k: string)
    ensures StartsWith(k, PROMPT_PREFIX) && k[|PROMPT_PREFIX|..] == userId
  {
    PROMPT_PREFIX + userId
  }

  predicate IsHistoryKey(k: string) {
    StartsWith(k, HISTORY_PREFIX)
  }

  /** No history key is a prompt key, whatever the two users: the
      prefixes already differ at their sixth character. */
  lemma KeysApart(u: string, v: string)
    ensures HistoryKey(u) != PromptKey(v)
    ensures !IsHistoryKey(PromptKey(v))
  {
    assert HistoryKey(u)[5] == 'h' && PromptKey(v)[5] == 'p';
  }

  /** Distinct users never share a history or a prompt key. */
  lemma KeysInjective(u: string, v: string)
    ensures HistoryKey(u) == HistoryKey(v) ==> u == v
    ensures PromptKey(u) == PromptKey(v) ==> u == v
  {
    assert HistoryKey(u)[|HISTORY_PREFIX|..] == u && HistoryKey(v)[|HISTORY_PREFIX|..] == v;
    assert PromptKey(u)[|PROMPT_PREFIX|..] == u && PromptKey(v)[|PROMPT_PREFIX|..] == v;
  }

  /** What every history key holds while only the services write it: a
      serialized history, or the empty string (which both services read as
      "no history"). */
  predicate WellFormed(data: map<string, Value>) {
    forall k :: k in data && IsHistoryKey(k) ==> data[k].Serialized? || data[k] == Text("")
  }

  /** `redis_client.get(key)` read as text: the empty string when the key
      is absent (both are falsy to the services). */
  function StoredText(data: map<string, Value>, key: string): string {
    if key in data && data[key].Text? then data[key].text else ""
  }

  /** `json.loads(history) if history else []`. */
  function StoredHistory(data: map<string, Value>, key: string): seq<Message> {
    if key in data && data[key].Serialized? then data[key].history else []
  }

  /** `if history:` on the raw stored string: a serialized history, even
      an empty one (`"[]"`), is a non-empty string. */
  predicate HasStoredHistory(data: map<string, Value>, key: string) {
    key in data && data[key].Serialized?
  }

  /** Writing a history, or a text at a non-history key, keeps the store
      well formed. */
  lemma WriteKeepsWellFormed(data: map<string, Value>, k: string, v: Value)
    requires WellFormed(data)
    requires v.Serialized? || v == Text("") || !IsHistoryKey(k)
    ensures WellFormed(data[k := v])
    ensures WellFormed(data - {k})
  {
  }

  /** A history read back after it is written is the history written, and
      no other key's reading changes. */
  lemma HistoryRoundTrip(data: map<string, Value>, k: string, h: seq<Message>, other: string)
    requires other != k
    ensures StoredHistory(data[k := Serialized(h)], k) == h
    ensures HasStoredHistory(data[k := Serialized(h)], k)
    ensures StoredHistory(data[k := Serialized(h)], other) == StoredHistory(data, other)
    ensures StoredText(data[k := Serialized(h)], other) == StoredText(data, other)
  {
  }

  /** The Redis server, as seen by one request. */
  class Redis {
    var data: map<string, Value>

    constructor (data: map<string, Value>)
      ensures this.data == data
    {
      this.data := data;
    }

    predicate Valid()
      reads this
    {
      WellFormed(data)
    }

    method Get(key: string) returns (v: Option<Value>)
      ensures v == if key in data then Some(data[key]) else None
    {
      v := if key in data then Some(data[key]) else None;
    }

    method Set(key: string, v: Value)
      modifies this
      ensures data == old(data)[key := v]
    {
      data := data[key := v];
    }

    method Delete(key: string)
      modifies this
      ensures data == old(data) - {key}
    {
      data := data - {key};
    }
  }
}

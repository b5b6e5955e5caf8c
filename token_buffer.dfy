/** The browser's token batching buffer (`TokenBuffer`): streamed text is
    collected in `buffer` and emitted as `<span class="token">` children of
    one content `<div>`, either when `minChunkSize` UTF-16 code units (the
    JavaScript `length`) have piled up, when the `maxDelay` timer fires, or when the stream completes.

    The DOM is abstracted: the content div is a flag saying whether it has
    been inserted, its spans are a sequence of strings, the loading dots are
    a flag, and the pending `setTimeout` handle is a flag. The behaviour of
    each method is first given as a function on `TokenState`; the class
    `TokenBuffer` is then proved to follow those functions. */
module TokenBuffers {
  import opened Common

  /** The observable state of one token buffer. */
  datatype TokenState = TokenState(
    minChunkSize: nat,      // the flush threshold, fixed at construction
    buffer: string,         // text appended but not yet emitted
    timerPending: bool,     // `this.timeout` holds a live timer
    contentCreated: bool,   // `this.contentDiv` has been inserted
    spans: seq<string>,     // text of the token spans, in document order
    loadingDots: bool)      // the loading indicator is still shown

  /** The state right after `new TokenBuffer(minChunkSize, ...)`. */
  function Initial(minChunkSize: nat): TokenState {
    TokenState(minChunkSize, "", false, false, [], true)
  }

  /** Everything accepted so far, emitted or pending. */
  function Emitted(s: TokenState): string {
    Flatten(s.spans) + s.buffer
  }

  /** Nothing is emitted or pending without a content div (so `flush`
      never dereferences a null `contentDiv`), and no span is empty. */
  predicate Attached(s: TokenState) {
    && (s.buffer != "" || s.spans != [] ==> s.contentCreated)
    && (forall i :: 0 <= i < |s.spans| ==> s.spans[i] != "")
  }

  /** The invariant every method keeps between calls: `Attached`, and the
      pending text is below the threshold (or there is none). */
  predicate WellFormed(s: TokenState) {
    Attached(s) && (s.buffer == "" || Utf16Length(s.buffer) < s.minChunkSize)
  }

  /** `initializeContent()`: insert the content div unless it exists. */
  function WithContent(s: TokenState): TokenState {
    if s.contentCreated then s else s.(contentCreated := true)
  }

  /** `flush()`: emit the pending text as one span if there is any, then
      cancel the timer. */
  function Flushed(s: TokenState): TokenState {
    var emitted := if s.buffer != "" then s.(spans := s.spans + [s.buffer], buffer := "") else s;
    emitted.(timerPending := false)
  }

  /** `append(text)`. */
  function Appended(s: TokenState, text: string): TokenState {
    var grown := WithContent(s).(buffer := s.buffer + text);
    if Utf16Length(grown.buffer) >= s.minChunkSize then Flushed(grown)
    else if !grown.timerPending then grown.(timerPending := true)
    else grown
  }

  /** The `setTimeout` callback: the pending timer runs `flush()`. */
  function Fired(s: TokenState): TokenState {
    if s.timerPending then Flushed(s) else s
  }

  /** `clear()`: drop the pending text and cancel the timer. */
  function Cleared(s: TokenState): TokenState {
    s.(buffer := "", timerPending := false)
  }

  /** `complete()`: flush, then remove the loading indicator. */
  function Completed(s: TokenState): TokenState {
    Flushed(s).(loadingDots := false)
  }

  /** `append` applied to each text in turn. */
  function AppendAll(s: TokenState, texts: seq<string>): TokenState
    decreases |texts|
  {
    if texts == [] then s else Appended(AppendAll(s, texts[..|texts| - 1]), texts[|texts| - 1])
  }

  /** The events a token buffer sees. */
  datatype Op = AppendOp(text: string) | FlushOp | FireOp | ClearOp | CompleteOp

  function Apply(s: TokenState, op: Op): TokenState {
    match op
    case AppendOp(t) => Appended(s, t)
    case FlushOp => Flushed(s)
    case FireOp => Fired(s)
    case ClearOp => Cleared(s)
    case CompleteOp => Completed(s)
  }

  /** A run of events, applied left to right. */
  function Run(s: TokenState, ops: seq<Op>): TokenState
    decreases |ops|
  {
    if ops == [] then s else Run(Apply(s, ops[0]), ops[1..])
  }

  /** The text an event passes to `append`. */
  function OpText(op: Op): string {
    if op.AppendOp? then op.text else ""
  }

  /** The text passed to `append` in a run of events. */
  function AppendedText(ops: seq<Op>): string
    decreases |ops|
  {
    if ops == [] then "" else OpText(ops[0]) + AppendedText(ops[1..])
  }

  /** `flush` never loses or reorders text, never emits an empty span, and
      leaves nothing pending and no timer; on an empty buffer it changes no
      output. */
  lemma FlushSpec(s: TokenState)
    ensures Emitted(Flushed(s)) == Emitted(s)
    ensures Flushed(s).buffer == "" && !Flushed(s).timerPending
    ensures s.buffer == "" ==> Flushed(s).spans == s.spans
    ensures s.buffer != "" ==> Flushed(s).spans == s.spans + [s.buffer]
    ensures Attached(s) ==> WellFormed(Flushed(s))
  {
    if s.buffer != "" {
      FlattenSnoc(s.spans, s.buffer);
    }
  }

  /** `append(text)` adds exactly `text` to what has been accepted, and on
      return the buffer is either empty (it flushed) or below the
      threshold with a timer armed. A timer already pending is kept, never
      replaced, so at most one is pending. */
  lemma AppendSpec(s: TokenState, text: string)
    requires WellFormed(s)
    ensures Emitted(Appended(s, text)) == Emitted(s) + text
    ensures Appended(s, text).buffer == "" || Utf16Length(Appended(s, text).buffer) < s.minChunkSize
    ensures Appended(s, text).buffer != "" ==> Appended(s, text).timerPending
    ensures Utf16Length(s.buffer + text) < s.minChunkSize ==>
              Appended(s, text).spans == s.spans && Appended(s, text).timerPending
    ensures Appended(s, text).contentCreated
    ensures WellFormed(Appended(s, text))
  {
    var grown := WithContent(s).(buffer := s.buffer + text);
    if Utf16Length(grown.buffer) >= s.minChunkSize {
      FlushSpec(grown);
      assert Appended(s, text) == Flushed(grown);
    } else {
      assert Appended(s, text) == grown.(timerPending := true);
    }
  }

  /** `clear()` drops the pending text and cancels the timer without
      emitting anything. */
  lemma ClearSpec(s: TokenState)
    requires WellFormed(s)
    ensures Cleared(s).spans == s.spans && Cleared(s).buffer == "" && !Cleared(s).timerPending
    ensures Emitted(Cleared(s)) == Flatten(s.spans)
    ensures WellFormed(Cleared(s))
  {
  }

  /** After `complete()` everything accepted is on screen, nothing is
      pending, and the loading indicator is gone. */
  lemma CompleteSpec(s: TokenState)
    requires WellFormed(s)
    ensures Flatten(Completed(s).spans) == Emitted(s)
    ensures Completed(s).buffer == "" && !Completed(s).timerPending && !Completed(s).loadingDots
    ensures WellFormed(Completed(s))
  {
    FlushSpec(s);
  }

  /** The content div is created at most once: initialising twice is
      initialising once, and nothing else changes. This follows from the
      definition of `WithContent` directly. */
  lemma InitializeContentIdempotent(s: TokenState)
    ensures WithContent(WithContent(s)) == WithContent(s)
    ensures WithContent(s).contentCreated
    ensures WithContent(s).(contentCreated := s.contentCreated) == s
  {
  }

  /** Batching is lossless: appending a sequence of texts adds their
      concatenation to what has been accepted. */
  lemma {:induction false} AppendAllSpec(s: TokenState, texts: seq<string>)
    requires WellFormed(s)
    ensures WellFormed(AppendAll(s, texts))
    ensures Emitted(AppendAll(s, texts)) == Emitted(s) + Flatten(texts)
    decreases |texts|
  {
    if texts != [] {
      var init, last := texts[..|texts| - 1], texts[|texts| - 1];
      AppendAllSpec(s, init);
      AppendSpec(AppendAll(s, init), last);
      FlattenLast(texts);
    }
  }

  lemma FlattenLast(texts: seq<string>)
    requires texts != []
    ensures Flatten(texts) == Flatten(texts[..|texts| - 1]) + texts[|texts| - 1]
  {
    assert texts == texts[..|texts| - 1] + [texts[|texts| - 1]];
    FlattenSnoc(texts[..|texts| - 1], texts[|texts| - 1]);
  }

  lemma {:induction false} AppendAllConcat(s: TokenState, a: seq<string>, b: seq<string>)
    ensures AppendAll(s, a + b) == AppendAll(AppendAll(s, a), b)
    decreases |b|
  {
    if b == [] {
      assert a + b == a;
    } else {
      assert (a + b)[..|a + b| - 1] == a + b[..|b| - 1];
      AppendAllConcat(s, a, b[..|b| - 1]);
    }
  }

  /** Any event but `clear()` keeps the invariant and adds exactly the
      text it appends. */
  lemma ApplySpec(s: TokenState, op: Op)
    requires WellFormed(s) && !op.ClearOp?
    ensures WellFormed(Apply(s, op))
    ensures Emitted(Apply(s, op)) == Emitted(s) + OpText(op)
  {
    match op {
      case AppendOp(t) => AppendSpec(s, t);
      case FlushOp => FlushSpec(s);
      case FireOp => FlushSpec(s);
      case CompleteOp => FlushSpec(s);
    }
  }

  /** With no `clear()` among the events, whatever the interleaving of
      appends, flushes, timer firings and completion, the emitted spans
      followed by the pending text are exactly the concatenation of all
      appended text. */
  lemma {:induction false} RunLossless(s: TokenState, ops: seq<Op>)
    requires WellFormed(s)
    requires forall i :: 0 <= i < |ops| ==> !ops[i].ClearOp?
    ensures WellFormed(Run(s, ops))
    ensures Emitted(Run(s, ops)) == Emitted(s) + AppendedText(ops)
    decreases |ops|
  {
    if ops != [] {
      var next := Apply(s, ops[0]);
      ApplySpec(s, ops[0]);
      RunLossless(next, ops[1..]);
      assert Emitted(s) + OpText(ops[0]) + AppendedText(ops[1..]) == Emitted(s) + AppendedText(ops);
    }
  }

  /** A content div created on first `append`, spans as its children. */
  class TokenBuffer {
    var buffer: string
    const minChunkSize: nat
    var timerPending: bool
    var contentCreated: bool
    var spans: seq<string>
    var loadingDots: bool

    function State(): TokenState
      reads this
    {
      TokenState(minChunkSize, buffer, timerPending, contentCreated, spans, loadingDots)
    }

    predicate Valid()
      reads this
    {
      WellFormed(State())
    }

    constructor (minChunkSize: nat)
      ensures Valid() && State() == Initial(minChunkSize)
    {
      this.minChunkSize := minChunkSize;
      buffer := "";
      timerPending := false;
      contentCreated := false;
      spans := [];
      loadingDots := true;
    }

    method InitializeContent()
      modifies this
      ensures State() == WithContent(old(State()))
    {
      if !contentCreated {
        contentCreated := true;
      }
    }

    method Flush()
      requires Attached(State())
      modifies this
      ensures Valid() && State() == Flushed(old(State()))
    {
      FlushSpec(State());
      if buffer != "" {
        spans := spans + [buffer];
        buffer := "";
      }
      if timerPending {
        timerPending := false;
      }
    }

    method Append(text: string)
      requires Valid()
      modifies this
      ensures Valid() && State() == Appended(old(State()), text)
    {
      AppendSpec(State(), text);
      InitializeContent();
      buffer := buffer + text;
      if Utf16Length(buffer) >= minChunkSize {
        Flush();
        return;
      }
      if !timerPending {
        timerPending := true;
      }
    }

    /** The armed timer's callback. */
    method Fire()
      requires Valid()
      modifies this
      ensures Valid() && State() == Fired(old(State()))
    {
      if timerPending {
        Flush();
      }
    }

    method Clear()
      requires Valid()
      modifies this
      ensures Valid() && State() == Cleared(old(State()))
    {
      buffer := "";
      if timerPending {
        timerPending := false;
      }
    }

    method Complete()
      requires Valid()
      modifies this
      ensures Valid() && State() == Completed(old(State()))
    {
      CompleteSpec(State());
      Flush();
      if loadingDots {
        loadingDots := false;
      }
    }
  }
}

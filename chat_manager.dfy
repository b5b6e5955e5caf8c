/** The browser-side controller (`ChatManager`): the model radio group in
    the prompt dialog, saving the prompt and model, the processing flag
    that locks the input while an answer streams, and sending a message.

    The DOM is abstracted: the radio options are a fixed sequence of model
    names with an array of `selected` flags (the `selected` CSS class);
    chat bubbles are a sequence; the prompt dialog is a flag. Requests to
    the server are recorded in sequences, and their answers are inputs. */
module ChatManagers {
  import opened Common
  import opened TokenBuffers
  import opened StreamProcessors

  /** At most one option carries the `selected` class. */
  predicate AtMostOne(flags: seq<bool>) {
    forall a, b :: 0 <= a < |flags| && 0 <= b < |flags| && flags[a] && flags[b] ==> a == b
  }

  /** The flags `updateModelSelection(m)` leaves. */
  function Selection(models: seq<string>, m: string): (flags: seq<bool>)
    ensures |flags| == |models|
    ensures forall i :: 0 <= i < |models| ==> (flags[i] <==> models[i] == m)
  {
    seq(|models|, i requires 0 <= i < |models| => models[i] == m)
  }

  /** The model list has no repeated name, as Ollama lists its models,
      so selecting by name selects at most one option. */
  lemma SelectionAtMostOne(models: seq<string>, m: string)
    requires forall a, b :: 0 <= a < b < |models| ==> models[a] != models[b]
    ensures AtMostOne(Selection(models, m))
  {
  }

  /** The flags after a click on option `i`. */
  function ClickResult(flags: seq<bool>, i: nat): seq<bool>
    requires i < |flags|
  {
    if flags[i] then flags[i := false] else seq(|flags|, j requires 0 <= j < |flags| => j == i)
  }

  /** Clicking the selected option leaves no option selected. */
  lemma ClickSelectedClears(flags: seq<bool>, i: nat)
    requires i < |flags| && AtMostOne(flags) && flags[i]
    ensures |ClickResult(flags, i)| == |flags|
    ensures forall j :: 0 <= j < |flags| ==> !ClickResult(flags, i)[j]
  {
  }

  /** Clicking an unselected option makes it the only selected one. */
  lemma ClickUnselectedSelectsOnly(flags: seq<bool>, i: nat)
    requires i < |flags| && !flags[i]
    ensures |ClickResult(flags, i)| == |flags|
    ensures forall j :: 0 <= j < |flags| ==> (ClickResult(flags, i)[j] <==> j == i)
  {
  }

  /** Clicks keep at most one option selected. */
  lemma ClickKeepsAtMostOne(flags: seq<bool>, i: nat)
    requires i < |flags| && AtMostOne(flags)
    ensures AtMostOne(ClickResult(flags, i))
  {
    if !flags[i] {
      ClickUnselectedSelectsOnly(flags, i);
    } else {
      ClickSelectedClears(flags, i);
    }
  }

  /** The model of the first selected option in document order. */
  function FirstSelected(models: seq<string>, flags: seq<bool>): Option<string>
    requires |models| == |flags|
    decreases |flags|
  {
    if flags == [] then None
    else if flags[0] then Some(models[0])
    else FirstSelected(models[1..], flags[1..])
  }

  /** There is a first selected model exactly when some option is
      selected, and it is the model of the earliest one. */
  lemma {:induction false} FirstSelectedSpec(models: seq<string>, flags: seq<bool>)
    requires |models| == |flags|
    ensures FirstSelected(models, flags).None? <==> forall j :: 0 <= j < |flags| ==> !flags[j]
    ensures FirstSelected(models, flags).Some? ==>
              exists j :: 0 <= j < |flags| && flags[j] && models[j] == FirstSelected(models, flags).value
                          && forall k :: 0 <= k < j ==> !flags[k]
    decreases |flags|
  {
    if flags != [] && !flags[0] {
      FirstSelectedSpec(models[1..], flags[1..]);
      if FirstSelected(models, flags).Some? {
        var j :| 0 <= j < |flags| - 1 && flags[1..][j] && models[1..][j] == FirstSelected(models, flags).value
                 && forall k :: 0 <= k < j ==> !flags[1..][k];
        assert flags[j + 1] && models[j + 1] == FirstSelected(models, flags).value;
        assert forall k :: 0 <= k < j + 1 ==> !flags[k] by {
          forall k | 0 <= k < j + 1 ensures !flags[k] {
            if k > 0 { assert flags[k] == flags[1..][k - 1]; }
          }
        }
      } else {
        assert forall j :: 0 <= j < |flags| ==> !flags[j] by {
          forall j | 0 <= j < |flags| ensures !flags[j] {
            if j > 0 { assert flags[j] == flags[1..][j - 1]; }
          }
        }
      }
    }
  }

  /** The radio options of the prompt dialog. */
  class RadioGroup {
    const models: seq<string>
    const selected: array<bool>

    predicate Valid()
      reads this
    {
      selected.Length == |models|
    }

    /** The options `showPromptModal` builds, one per listed model, in
        order; for a new chat the first one is selected, otherwise none. */
    constructor (models: seq<string>, isNewChat: bool)
      ensures Valid() && this.models == models && fresh(selected)
      ensures forall i :: 0 <= i < selected.Length ==> (selected[i] <==> isNewChat && i == 0)
    {
      this.models := models;
      selected := new bool[|models|](i => isNewChat && i == 0);
    }

    /** `updateModelSelection(m)`. */
    method UpdateModelSelection(m: string)
      requires Valid()
      modifies selected
      ensures selected[..] == Selection(models, m)
    {
      for i := 0 to selected.Length
        invariant forall k :: 0 <= k < i ==> (selected[k] <==> models[k] == m)
      {
        selected[i] := models[i] == m;
      }
    }

    /** The click handler of option `i`. */
    method Click(i: nat)
      requires Valid() && i < selected.Length
      modifies selected
      ensures selected[..] == ClickResult(old(selected[..]), i)
    {
      if selected[i] {
        selected[i] := false;
      } else {
        for j := 0 to selected.Length
          invariant forall k :: 0 <= k < j ==> !selected[k]
        {
          selected[j] := false;
        }
        selected[i] := true;
      }
    }

    /** `querySelector('.radio-option.selected')` and its `data-model`. */
    method SelectedModel() returns (m: Option<string>)
      requires Valid()
      ensures m == FirstSelected(models, selected[..])
    {
      var j := 0;
      while j < selected.Length
        invariant 0 <= j <= selected.Length
        invariant FirstSelected(models, selected[..]) == FirstSelected(models[j..], selected[j..])
      {
        if selected[j] {
          return Some(models[j]);
        }
        assert models[j..][1..] == models[j + 1..] && selected[j..][1..] == selected[j + 1..];
        j := j + 1;
      }
      m := None;
    }
  }

  /** A chat bubble of `ChatUI.addMessage(text, isUser)`. */
  datatype Bubble = Bubble(text: string, isUser: bool)

  datatype SaveRequest = SaveRequest(prompt: string, model: string)

  /** The answer to `ChatService.saveConfig`: `status == 'success'`,
      another status, or the request threw. */
  datatype SaveReply = Saved | Refused | Threw

  const SELECT_MODEL: string := "Please select a model."
  const SAVE_FAILED: string := "Failed to save configuration. Please try again."
  const SEND_FAILED: string := "Sorry, there was an error processing your request."

  /** `new TokenBuffer(20, 50, ...)`: the size threshold (the 50 ms delay
      is the timer, an external event). */
  const MIN_CHUNK_SIZE: nat := 20

  class ChatManager {
    const group: RadioGroup
    var input: string              // `ui.input.value`
    var currentPrompt: string
    var isProcessing: bool
    var inputEnabled: bool         // `ui.setInputState(...)`
    var bubbles: seq<Bubble>
    var modalShown: bool
    var saveRequests: seq<SaveRequest>
    var sentMessages: seq<string>  // `ChatService.sendMessage` calls

    predicate Valid()
      reads this, group
    {
      group.Valid()
    }

    constructor (group: RadioGroup)
      requires group.Valid()
      ensures Valid() && this.group == group
      ensures input == "" && currentPrompt == "" && !isProcessing && inputEnabled
      ensures bubbles == [] && !modalShown && saveRequests == [] && sentMessages == []
    {
      this.group := group;
      input := "";
      currentPrompt := "";
      isProcessing := false;
      inputEnabled := true;
      bubbles := [];
      modalShown := false;
      saveRequests := [];
      sentMessages := [];
    }

    /** `setProcessingState(p)`: the input is enabled exactly when not
        processing. */
    method SetProcessingState(p: bool)
      modifies this
      ensures isProcessing == p && inputEnabled == !p
      ensures input == old(input) && currentPrompt == old(currentPrompt) && bubbles == old(bubbles)
      ensures modalShown == old(modalShown) && saveRequests == old(saveRequests) && sentMessages == old(sentMessages)
    {
      isProcessing := p;
      inputEnabled := !p;
    }

    /** `savePromptAndModel()` with the editor's text and the answer the
        save request would get. Without a selected model (or with an empty
        one) nothing is sent; `currentPrompt` changes, to the trimmed
        text, only on a successful save, which also closes the dialog. */
    method SavePromptAndModel(editor: string, reply: SaveReply) returns (saved: bool)
      requires Valid()
      modifies this
      ensures Valid()
      ensures var m := FirstSelected(group.models, group.selected[..]);
              && (m.None? || m.value == "" ==>
                    !saved && saveRequests == old(saveRequests) && bubbles == old(bubbles) + [Bubble(SELECT_MODEL, false)])
              && (m.Some? && m.value != "" ==>
                    && saveRequests == old(saveRequests) + [SaveRequest(Strip(editor), m.value)]
                    && (saved <==> reply == Saved)
                    && bubbles == old(bubbles) + (if saved then [] else [Bubble(SAVE_FAILED, false)]))
      ensures saved ==> currentPrompt == Strip(editor) && !modalShown
      ensures !saved ==> currentPrompt == old(currentPrompt) && modalShown == old(modalShown)
      ensures input == old(input) && isProcessing == old(isProcessing) && inputEnabled == old(inputEnabled)
      ensures sentMessages == old(sentMessages)
    {
      var newPrompt := Strip(editor);
      var newModel := group.SelectedModel();
      if newModel.None? || newModel.value == "" {
        bubbles := bubbles + [Bubble(SELECT_MODEL, false)];
        return false;
      }
      saveRequests := saveRequests + [SaveRequest(newPrompt, newModel.value)];
      if reply == Saved {
        currentPrompt := newPrompt;
        modalShown := false;
        saved := true;
      } else {
        bubbles := bubbles + [Bubble(SAVE_FAILED, false)];
        saved := false;
      }
    }

    /** `sendMessage()`. `reply` is what streaming the answer gives: `None`
        when `ChatService.sendMessage` throws, else the download. It is a
        no-op when the trimmed input is empty or a message is already being
        processed; otherwise the message is shown and sent, the answer is
        streamed into a fresh token buffer, an error is shown in place of
        the loading dots if anything threw, and the input is unlocked
        again at the end. */
    method SendMessage(reply: Option<Download>, parse: Parser) returns (tb: TokenBuffer?)
      requires Valid()
      modifies this
      ensures Valid()
      ensures Strip(old(input)) == "" || old(isProcessing) ==>
                tb == null && input == old(input) && isProcessing == old(isProcessing)
                && inputEnabled == old(inputEnabled) && bubbles == old(bubbles) && sentMessages == old(sentMessages)
      ensures Strip(old(input)) != "" && !old(isProcessing) ==>
                && tb != null && fresh(tb) && tb.Valid() && tb.State() == AnswerState(reply, parse)
                && input == "" && !isProcessing && inputEnabled
                && sentMessages == old(sentMessages) + [Strip(old(input))]
                && bubbles == old(bubbles) + [Bubble(Strip(old(input)), true)]
                     + (if Answered(reply) then [] else [Bubble(SEND_FAILED, false)])
      ensures currentPrompt == old(currentPrompt) && saveRequests == old(saveRequests) && modalShown == old(modalShown)
    {
      var message := Strip(input);
      if message == "" || isProcessing {
        return null;
      }
      SetProcessingState(true);
      bubbles := bubbles + [Bubble(message, true)];
      input := "";
      sentMessages := sentMessages + [message];
      var ok;
      tb, ok := StreamAnswer(reply, parse);
      if !ok {
        bubbles := bubbles + [Bubble(SEND_FAILED, false)];
      }
      SetProcessingState(false);
    }
  }

  /** Whether the answer streamed to its end without anything throwing. */
  predicate Answered(reply: Option<Download>) {
    reply.Some? && !reply.value.failed
  }

  /** The answer bubble's token buffer once `sendMessage` is done: completed
      after the whole stream, or, when something threw, whatever had been
      appended with the loading dots removed. */
  function AnswerState(reply: Option<Download>, parse: Parser): (s: TokenState)
    ensures !s.loadingDots
  {
    if reply.None? then Initial(MIN_CHUNK_SIZE).(loadingDots := false)
    else
      var appended := AppendAll(Initial(MIN_CHUNK_SIZE), StreamTokens(reply.value, parse));
      if reply.value.failed then appended.(loadingDots := false) else Completed(appended)
  }

  /** The part of `sendMessage` from `ui.showLoading()` to the catch: a
      fresh token buffer and processor, and the stream read into them. */
  method StreamAnswer(reply: Option<Download>, parse: Parser) returns (tb: TokenBuffer, ok: bool)
    ensures fresh(tb) && tb.Valid()
    ensures ok == Answered(reply)
    ensures tb.State() == AnswerState(reply, parse)
  {
    tb := new TokenBuffer(MIN_CHUNK_SIZE);
    var sp := new StreamProcessor(tb);
    ok := false;
    if reply.Some? {
      var d := reply.value;
      assert sp.buffer == "" && sp.dataBuffer == "" && tb.State() == Initial(MIN_CHUNK_SIZE);
      ok := sp.ProcessStream(d, parse);
      ghost var r := FeedChunks("", "", d.chunks, LineStepper(parse));
      assert StreamTokens(d, parse) == r.tokens + (if d.failed then [] else EndTokens(r.dataBuffer, parse));
      assert d.failed ==> r.tokens + [] == r.tokens;
    }
    if !ok {
      tb.loadingDots := false;
    }
  }

  /** A message that streams to the end shows, in its answer bubble,
      exactly the concatenated contents the server sent, with nothing
      pending and no loading dots. */
  lemma SentAnswerComplete(d: Download, parse: Parser)
    requires !d.failed
    ensures var s := AnswerState(Some(d), parse);
            Flatten(s.spans) == Flatten(StreamTokens(d, parse)) && s.buffer == "" && !s.loadingDots
  {
    RenderedStream(MIN_CHUNK_SIZE, d, d, parse);
  }
}

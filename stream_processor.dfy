/** The browser's reassembly of the chat server's event stream
    (`StreamProcessor`), a simplified subset of the event-stream format of
    section 9.2 (Server-sent events) of the WHATWG HTML Living Standard:
    text chunks are split into lines at `'\n'`, only `data: ` lines are
    used, the `[DONE]` marker is skipped, and payloads are accumulated in
    `dataBuffer` until the accumulated text parses as JSON with a
    `content` field, which then goes to the token buffer.

    `TextDecoder` is abstracted (chunks arrive as decoded strings) and
    `JSON.parse` followed by reading `.content` is an oracle `Parser`. */
module StreamProcessors {
  import opened Common
  import opened TokenBuffers

  /** `JSON.parse(text).content`: `None` when parsing (or reading the
      field) throws, `Some(c)` when it parses, where `c` is the content or
      `""` when the field is missing or falsy. */
  type Parser = string -> Option<string>

  const DATA_PREFIX: string := "data: "
  const DONE_MARKER: string := "[DONE]"

  /** What the server sends after its last event. */
  const DONE_FRAME: string := "data: [DONE]\n\n"

  /** Complete lines, and the text after the last `'\n'`. */
  datatype Split = Split(lines: seq<string>, rest: string)

  /** Every line followed by its `'\n'`. */
  function JoinLines(lines: seq<string>): string {
    if lines == [] then "" else lines[0] + "\n" + JoinLines(lines[1..])
  }

  predicate NoNewlines(lines: seq<string>) {
    forall i :: 0 <= i < |lines| ==> '\n' !in lines[i]
  }

  /** The lines `processChunk` cuts off the front of `s`, one
      `indexOf('\n')` at a time, and the residue it keeps. */
  function SplitLines(s: string): Split
    decreases |s|
  {
    var k := IndexOf(s, '\n');
    if k == -1 then Split([], s)
    else
      var tail := SplitLines(s[k + 1..]);
      Split([s[..k]] + tail.lines, tail.rest)
  }

  /** Splitting is lossless and ordered: the lines, each followed by
      `'\n'`, then the residue, are `s` again; no line and not the residue
      holds a `'\n'`. */
  lemma {:induction false} SplitLinesSpec(s: string)
    ensures '\n' !in SplitLines(s).rest
    ensures NoNewlines(SplitLines(s).lines)
    ensures JoinLines(SplitLines(s).lines) + SplitLines(s).rest == s
    decreases |s|
  {
    var k := IndexOf(s, '\n');
    if k != -1 {
      var tail := SplitLines(s[k + 1..]);
      SplitLinesSpec(s[k + 1..]);
      NoNewlinesCons(s[..k], tail.lines);
      JoinLinesAt(s, k, tail.lines, tail.rest);
    }
  }

  lemma NoNewlinesCons(head: string, tl: seq<string>)
    requires '\n' !in head && NoNewlines(tl)
    ensures NoNewlines([head] + tl)
  {
    var lines := [head] + tl;
    forall i | 0 <= i < |lines| ensures '\n' !in lines[i] {
      if i > 0 {
        assert lines[i] == tl[i - 1];
      }
    }
  }

  lemma NoNewlinesConcat(a: seq<string>, b: seq<string>)
    requires NoNewlines(a) && NoNewlines(b)
    ensures NoNewlines(a + b)
  {
    forall i | 0 <= i < |a| + |b| ensures '\n' !in (a + b)[i] {
      if i >= |a| {
        assert (a + b)[i] == b[i - |a|];
      }
    }
  }

  /** Cutting `s` at a newline `k`: the head line, then the rest. */
  lemma JoinLinesAt(s: string, k: nat, tl: seq<string>, rest: string)
    requires k < |s| && s[k] == '\n'
    requires JoinLines(tl) + rest == s[k + 1..]
    ensures JoinLines([s[..k]] + tl) + rest == s
  {
    assert ([s[..k]] + tl)[1..] == tl;
    assert s[..k] + "\n" + s[k + 1..] == s;
  }

  /** `indexOf` finds the first occurrence. */
  lemma {:induction false} IndexOfAt(s: string, c: char, j: nat)
    requires j < |s| && s[j] == c && c !in s[..j]
    ensures IndexOf(s, c) == j
  {
    if j > 0 {
      assert s[0] == s[..j][0];
      assert s[1..][j - 1] == s[j];
      assert s[1..][..j - 1] == s[..j][1..];
      IndexOfAt(s[1..], c, j - 1);
    }
  }

  lemma {:induction false} JoinLinesAppend(a: seq<string>, b: seq<string>)
    ensures JoinLines(a + b) == JoinLines(a) + JoinLines(b)
  {
    if a == [] {
      assert a + b == b;
    } else {
      assert (a + b)[0] == a[0];
      assert (a + b)[1..] == a[1..] + b;
      JoinLinesAppend(a[1..], b);
    }
  }

  /** The split is the only one: any lines without `'\n'` and residue
      without `'\n'` that join to `s` are what `SplitLines` returns. */
  lemma {:induction false} SplitUnique(lines: seq<string>, rest: string)
    requires NoNewlines(lines) && '\n' !in rest
    ensures SplitLines(JoinLines(lines) + rest) == Split(lines, rest)
  {
    var s := JoinLines(lines) + rest;
    if lines == [] {
      assert s == rest;
    } else {
      var first := lines[0];
      var more := JoinLines(lines[1..]) + rest;
      assert s == first + "\n" + more;
      assert s[..|first|] == first;
      assert s[|first|] == '\n';
      IndexOfAt(s, '\n', |first|);
      assert s[|first| + 1..] == more;
      assert NoNewlines(lines[1..]) by {
        forall i | 0 <= i < |lines| - 1 ensures '\n' !in lines[1..][i] {
          assert lines[1..][i] == lines[i + 1];
        }
      }
      SplitUnique(lines[1..], rest);
      assert lines == [first] + lines[1..];
    }
  }

  /** Splitting `s + t` is splitting `s`, then splitting its residue
      followed by `t`: the chunk boundary does not matter. */
  lemma SplitAppend(s: string, t: string)
    ensures var a := SplitLines(s); var b := SplitLines(a.rest + t);
            SplitLines(s + t) == Split(a.lines + b.lines, b.rest)
  {
    var a := SplitLines(s);
    var b := SplitLines(a.rest + t);
    SplitLinesSpec(s);
    SplitLinesSpec(a.rest + t);
    JoinLinesThen(a.lines, b.lines, a.rest, b.rest, s, t);
    NoNewlinesConcat(a.lines, b.lines);
    SplitUnique(a.lines + b.lines, b.rest);
  }

  lemma JoinLinesThen(la: seq<string>, lb: seq<string>, ra: string, rb: string, s: string, t: string)
    requires JoinLines(la) + ra == s && JoinLines(lb) + rb == ra + t
    ensures JoinLines(la + lb) + rb == s + t
  {
    JoinLinesAppend(la, lb);
    calc {
      JoinLines(la + lb) + rb;
      JoinLines(la) + (JoinLines(lb) + rb);
      JoinLines(la) + (ra + t);
      (JoinLines(la) + ra) + t;
    }
  }

  /** Cutting the first line off the unsplit text `b` keeps the lines
      done so far, each with its `'\n'`, followed by the text, equal to
      what there was to split. */
  lemma JoinLinesCut(done: seq<string>, b: string, k: nat)
    requires k < |b| && b[k] == '\n'
    ensures JoinLines(done + [b[..k]]) + b[k + 1..] == JoinLines(done) + b
  {
    JoinLinesAppend(done, [b[..k]]);
    assert JoinLines([b[..k]]) == b[..k] + "\n" + JoinLines([]) by {
      assert [b[..k]][1..] == [];
    }
    assert b == b[..k] + "\n" + b[k + 1..];
  }

  lemma NoNewlinesSnoc(done: seq<string>, line: string)
    requires NoNewlines(done) && '\n' !in line
    ensures NoNewlines(done + [line])
  {
    NoNewlinesConcat(done, [line]);
  }

  /** One turn of the `processChunk` loop, on values: the line cut off
      the front joins the lines done, and feeding it extends what the
      lines done so far produced. */
  lemma ChunkLoopStep(s0: string, done: seq<string>, b: string, k: int, db0: string, tb0: TokenState, step: Step)
    requires JoinLines(done) + b == s0 && NoNewlines(done)
    requires k == IndexOf(b, '\n') && k != -1
    ensures JoinLines(done + [b[..k]]) + b[k + 1..] == s0 && NoNewlines(done + [b[..k]])
    ensures var f := Feed(db0, done, step); var e := step(f.dataBuffer, b[..k]);
            && Feed(db0, done + [b[..k]], step) == Fed(e.dataBuffer, f.tokens + TokenOf(e))
            && AppendAll(tb0, f.tokens + TokenOf(e)) == AppendAll(AppendAll(tb0, f.tokens), TokenOf(e))
  {
    JoinLinesCut(done, b, k);
    NoNewlinesSnoc(done, b[..k]);
    FeedSnoc(db0, done, b[..k], step);
    var f := Feed(db0, done, step);
    AppendAllConcat(tb0, f.tokens, TokenOf(step(f.dataBuffer, b[..k])));
  }

  /** The effect of `processLine` on `dataBuffer`, and the content it
      hands to the token buffer, if any. */
  datatype LineEffect = LineEffect(dataBuffer: string, token: Option<string>)

  /** `processLine(line)` starting from `dataBuffer == db`. A failed parse
      is the `None` of the oracle: it is caught inside, so it never
      escapes. */
  function LineStep(db: string, line: string, parse: Parser): LineEffect {
    if Strip(line) == "" then LineEffect(db, None)
    else if !StartsWith(line, DATA_PREFIX) then LineEffect(db, None)
    else
      var data := line[|DATA_PREFIX|..];
      if data == DONE_MARKER then LineEffect(db, None)
      else
        var acc := db + data;
        var parsed := parse(acc);
        if parsed.Some? && parsed.value != "" then LineEffect("", Some(parsed.value))
        else LineEffect(acc, None)
  }

  /** Which lines change nothing, and what the others do: a blank line, a
      line that is not a `data: ` line, and the `[DONE]` marker leave
      `dataBuffer` alone and hand nothing on; any other data line appends
      its payload (the line minus its 6-character prefix) to `dataBuffer`,
      and `dataBuffer` is reset exactly when the accumulated text parses
      with non-empty content, which is then what is handed on. This is
      `LineStep` read case by case; `ChunkingIrrelevant` and
      `RenderedStream` are the properties built on it. */
  lemma LineStepSpec(db: string, line: string, parse: Parser)
    ensures AllSpace(line) ==> LineStep(db, line, parse) == LineEffect(db, None)
    ensures !StartsWith(line, DATA_PREFIX) ==> LineStep(db, line, parse) == LineEffect(db, None)
    ensures line == DATA_PREFIX + DONE_MARKER ==> LineStep(db, line, parse) == LineEffect(db, None)
    ensures StartsWith(line, DATA_PREFIX) && line[6..] != DONE_MARKER ==>
              var acc := db + line[6..];
              var e := LineStep(db, line, parse);
              && (e.token.Some? <==> parse(acc).Some? && parse(acc).value != "")
              && (e.token.Some? ==> e.token == parse(acc) && e.dataBuffer == "")
              && (e.token.None? ==> e.dataBuffer == acc)
  {
    StripEmptyIffAllSpace(line);
    if StartsWith(line, DATA_PREFIX) {
      assert line[0] == 'd' && !IsSpace(line[0]);
      assert Strip(line) != "";
    }
    if line == DATA_PREFIX + DONE_MARKER {
      assert line[6..] == DONE_MARKER;
    }
  }

  /** A `processLine` step: what one line does to `dataBuffer`. */
  type Step = (string, string) -> LineEffect

  function LineStepper(parse: Parser): Step {
    (db: string, line: string) => LineStep(db, line, parse)
  }

  /** A line step applied to each line in turn. */
  datatype Fed = Fed(dataBuffer: string, tokens: seq<string>)

  function TokenOf(e: LineEffect): seq<string> {
    if e.token.Some? then [e.token.value] else []
  }

  function Feed(db: string, lines: seq<string>, step: Step): Fed
    decreases |lines|
  {
    if lines == [] then Fed(db, [])
    else
      var e := step(db, lines[0]);
      var f := Feed(e.dataBuffer, lines[1..], step);
      Fed(f.dataBuffer, TokenOf(e) + f.tokens)
  }

  lemma {:induction false} FeedAppend(db: string, a: seq<string>, b: seq<string>, step: Step)
    ensures var f := Feed(db, a, step); var g := Feed(f.dataBuffer, b, step);
            Feed(db, a + b, step) == Fed(g.dataBuffer, f.tokens + g.tokens)
    decreases |a|
  {
    if a == [] {
      assert a + b == b;
    } else {
      var e := step(db, a[0]);
      FeedAppend(e.dataBuffer, a[1..], b, step);
      var f1 := Feed(e.dataBuffer, a[1..], step);
      var g := Feed(f1.dataBuffer, b, step);
      FeedCons(db, a, step);
      FeedCons(db, a + b, step);
      assert (a + b)[0] == a[0];
      assert (a + b)[1..] == a[1..] + b;
      assert TokenOf(e) + (f1.tokens + g.tokens) == (TokenOf(e) + f1.tokens) + g.tokens;
    }
  }

  lemma FeedCons(db: string, lines: seq<string>, step: Step)
    requires lines != []
    ensures var e := step(db, lines[0]); var f := Feed(e.dataBuffer, lines[1..], step);
            Feed(db, lines, step) == Fed(f.dataBuffer, TokenOf(e) + f.tokens)
  {
  }

  lemma FeedSnoc(db: string, a: seq<string>, line: string, step: Step)
    ensures var f := Feed(db, a, step); var e := step(f.dataBuffer, line);
            Feed(db, a + [line], step) == Fed(e.dataBuffer, f.tokens + TokenOf(e))
  {
    FeedAppend(db, a, [line], step);
    var f := Feed(db, a, step);
    FeedCons(f.dataBuffer, [line], step);
    assert [line][1..] == [];
  }

  /** The processor's line buffer, `dataBuffer`, and the contents handed
      to the token buffer. */
  datatype Scan = Scan(buffer: string, dataBuffer: string, tokens: seq<string>)

  /** `processChunk(text)`. */
  function ChunkStep(buffer: string, db: string, text: string, step: Step): Scan {
    var sp := SplitLines(buffer + text);
    var f := Feed(db, sp.lines, step);
    Scan(sp.rest, f.dataBuffer, f.tokens)
  }

  /** `processChunk` applied to each chunk in turn. */
  function FeedChunks(buffer: string, db: string, chunks: seq<string>, step: Step): Scan
    decreases |chunks|
  {
    if chunks == [] then Scan(buffer, db, [])
    else
      var prev := FeedChunks(buffer, db, chunks[..|chunks| - 1], step);
      var st := ChunkStep(prev.buffer, prev.dataBuffer, chunks[|chunks| - 1], step);
      Scan(st.buffer, st.dataBuffer, prev.tokens + st.tokens)
  }

  lemma ChunkStepCompose(buffer: string, db: string, t1: string, t2: string, step: Step)
    ensures var s1 := ChunkStep(buffer, db, t1, step);
            var s2 := ChunkStep(s1.buffer, s1.dataBuffer, t2, step);
            ChunkStep(buffer, db, t1 + t2, step) == Scan(s2.buffer, s2.dataBuffer, s1.tokens + s2.tokens)
  {
    SplitAppend(buffer + t1, t2);
    assert buffer + t1 + t2 == buffer + (t1 + t2);
    var a := SplitLines(buffer + t1);
    var b := SplitLines(a.rest + t2);
    FeedAppend(db, a.lines, b.lines, step);
  }

  /** However the server's text is cut into chunks, the processor ends in
      the same state and hands on the same contents as if it had arrived
      in one piece. */
  lemma {:induction false} ChunkingIrrelevant(buffer: string, db: string, chunks: seq<string>, step: Step)
    requires '\n' !in buffer
    ensures FeedChunks(buffer, db, chunks, step) == ChunkStep(buffer, db, Flatten(chunks), step)
    decreases |chunks|
  {
    if chunks == [] {
      ChunkStepEmpty(buffer, db, step);
    } else {
      var init, last := chunks[..|chunks| - 1], chunks[|chunks| - 1];
      ChunkingIrrelevant(buffer, db, init, step);
      ChunkStepCompose(buffer, db, Flatten(init), last, step);
      assert chunks == init + [last];
      FlattenSnoc(init, last);
    }
  }

  /** An empty chunk on a buffer without a newline does nothing. */
  lemma ChunkStepEmpty(buffer: string, db: string, step: Step)
    requires '\n' !in buffer
    ensures ChunkStep(buffer, db, "", step) == Scan(buffer, db, [])
  {
    assert buffer + "" == JoinLines([]) + buffer;
    SplitUnique([], buffer);
  }

  /** The one final parse `handleStreamEnd` makes of a non-empty
      `dataBuffer`. */
  function EndTokens(db: string, parse: Parser): seq<string> {
    if db != "" && parse(db).Some? && parse(db).value != "" then [parse(db).value] else []
  }

  /** What the reader delivers: the chunks read, and whether a further
      `read()` threw instead of reporting `done`. */
  datatype Download = Download(chunks: seq<string>, failed: bool)

  /** Every content a fresh processor hands to its token buffer over a
      whole download. */
  function StreamTokens(d: Download, parse: Parser): seq<string> {
    var r := FeedChunks("", "", d.chunks, LineStepper(parse));
    r.tokens + (if d.failed then [] else EndTokens(r.dataBuffer, parse))
  }

  /** The server's closing `data: [DONE]` frame changes nothing on the
      client: no content, `dataBuffer` untouched, nothing left over. */
  lemma DoneFrameIsInert(db: string, parse: Parser)
    ensures ChunkStep("", db, DONE_FRAME, LineStepper(parse)) == Scan("", db, [])
  {
    assert "" + DONE_FRAME == DONE_FRAME;
    DoneFrameSplit();
    DoneLinesInert(db, parse);
  }

  lemma DoneFrameSplit()
    ensures SplitLines(DONE_FRAME) == Split([DATA_PREFIX + DONE_MARKER, ""], "")
  {
    var l1, l2 := DATA_PREFIX + DONE_MARKER, "";
    assert JoinLines([l2]) == "\n" by { assert [l2][1..] == []; }
    assert JoinLines([l1, l2]) == l1 + "\n" + JoinLines([l2]) by { assert [l1, l2][1..] == [l2]; }
    assert JoinLines([l1, l2]) + "" == DONE_FRAME;
    assert NoNewlines([l1, l2]) by {
      assert '\n' !in l1;
    }
    SplitUnique([l1, l2], "");
  }

  lemma DoneLinesInert(db: string, parse: Parser)
    ensures Feed(db, [DATA_PREFIX + DONE_MARKER, ""], LineStepper(parse)) == Fed(db, [])
  {
    var l1, l2 := DATA_PREFIX + DONE_MARKER, "";
    var step := LineStepper(parse);
    LineStepSpec(db, l1, parse);
    LineStepSpec(db, l2, parse);
    assert step(db, l1) == LineEffect(db, None);
    assert step(db, l2) == LineEffect(db, None);
    FeedCons(db, [l1, l2], step);
    assert [l1, l2][1..] == [l2];
    FeedCons(db, [l2], step);
    assert [l2][1..] == [];
  }

  /** End to end: a fresh token buffer fed by a fresh processor over a
      download that ends normally shows, once complete, exactly the
      concatenated contents in its spans, nothing pending, no loading
      indicator; and that outcome depends only on the concatenated text,
      not on where the chunks were cut. */
  lemma RenderedStream(minChunkSize: nat, d: Download, d2: Download, parse: Parser)
    requires !d.failed && !d2.failed && Flatten(d.chunks) == Flatten(d2.chunks)
    ensures var final := Completed(AppendAll(Initial(minChunkSize), StreamTokens(d, parse)));
            Flatten(final.spans) == Flatten(StreamTokens(d, parse))
            && final.buffer == "" && !final.loadingDots
    ensures StreamTokens(d, parse) == StreamTokens(d2, parse)
  {
    var s0 := Initial(minChunkSize);
    AppendAllSpec(s0, StreamTokens(d, parse));
    CompleteSpec(AppendAll(s0, StreamTokens(d, parse)));
    assert Emitted(s0) == "";
    ChunkingIrrelevant("", "", d.chunks, LineStepper(parse));
    ChunkingIrrelevant("", "", d2.chunks, LineStepper(parse));
  }

  class StreamProcessor {
    const tokenBuffer: TokenBuffer
    var buffer: string
    var dataBuffer: string
    ghost var Lines: seq<string>     // every line handed to processLine, in order
    ghost var Completions: nat       // calls of tokenBuffer.complete()

    predicate Valid()
      reads this, tokenBuffer
    {
      tokenBuffer.Valid() && '\n' !in buffer
    }

    constructor (tokenBuffer: TokenBuffer)
      requires tokenBuffer.Valid()
      ensures Valid() && this.tokenBuffer == tokenBuffer
      ensures buffer == "" && dataBuffer == "" && Lines == [] && Completions == 0
    {
      this.tokenBuffer := tokenBuffer;
      buffer := "";
      dataBuffer := "";
      Lines := [];
      Completions := 0;
    }

    method ProcessLine(line: string, parse: Parser)
      requires tokenBuffer.Valid()
      modifies this, tokenBuffer
      ensures tokenBuffer.Valid()
      ensures var e := LineStep(old(dataBuffer), line, parse);
              dataBuffer == e.dataBuffer
              && tokenBuffer.State() == AppendAll(old(tokenBuffer.State()), TokenOf(e))
      ensures buffer == old(buffer) && Lines == old(Lines) + [line] && Completions == old(Completions)
    {
      Lines := Lines + [line];
      if Strip(line) == "" {
        return;
      }
      if StartsWith(line, DATA_PREFIX) {
        var data := line[|DATA_PREFIX|..];
        if data == DONE_MARKER {
          return;
        }
        dataBuffer := dataBuffer + data;
        var parsed := parse(dataBuffer);
        if parsed.Some? && parsed.value != "" {
          ghost var before := tokenBuffer.State();
          tokenBuffer.Append(parsed.value);
          assert [parsed.value][..0] == [];
          assert AppendAll(before, [parsed.value]) == Appended(before, parsed.value);
          dataBuffer := "";
        }
      }
    }

    /** `processChunk(text)`: the loop takes complete lines off the front
        of the buffer until none is left. */
    method ProcessChunk(text: string, parse: Parser)
      requires Valid()
      modifies this, tokenBuffer
      ensures Valid()
      ensures var st := ChunkStep(old(buffer), old(dataBuffer), text, LineStepper(parse));
              buffer == st.buffer && dataBuffer == st.dataBuffer
              && tokenBuffer.State() == AppendAll(old(tokenBuffer.State()), st.tokens)
      ensures |old(Lines)| <= |Lines| && Lines[..|old(Lines)|] == old(Lines)
      ensures JoinLines(Lines[|old(Lines)|..]) + buffer == old(buffer) + text
      ensures Completions == old(Completions)
    {
      buffer := buffer + text;
      ghost var s0, db0, tb0, lines0 := buffer, dataBuffer, tokenBuffer.State(), Lines;
      ghost var step := LineStepper(parse);
      ghost var done: seq<string> := [];
      while true
        invariant tokenBuffer.Valid()
        invariant JoinLines(done) + buffer == s0 && NoNewlines(done)
        invariant Lines == lines0 + done
        invariant dataBuffer == Feed(db0, done, step).dataBuffer
        invariant tokenBuffer.State() == AppendAll(tb0, Feed(db0, done, step).tokens)
        invariant Completions == old(Completions)
        decreases |buffer|
      {
        var k := IndexOf(buffer, '\n');
        if k == -1 {
          break;
        }
        var line := buffer[..k];
        ChunkLoopStep(s0, done, buffer, k, db0, tb0, step);
        buffer := buffer[k + 1..];
        ghost var db := dataBuffer;
        ProcessLine(line, parse);
        assert step(db, line) == LineStep(db, line, parse);
        done := done + [line];
      }
      SplitUnique(done, buffer);
      assert Lines[|old(Lines)|..] == done;
      assert Lines[..|old(Lines)|] == old(Lines);
    }

    /** `handleStreamEnd()`: one last parse of a non-empty `dataBuffer`
        (a failure is swallowed), then `complete()` exactly once. */
    method HandleStreamEnd(parse: Parser)
      requires Valid()
      modifies this, tokenBuffer
      ensures Valid()
      ensures tokenBuffer.State() == Completed(AppendAll(old(tokenBuffer.State()), EndTokens(old(dataBuffer), parse)))
      ensures buffer == old(buffer) && dataBuffer == old(dataBuffer) && Lines == old(Lines)
      ensures Completions == old(Completions) + 1
    {
      ghost var before := tokenBuffer.State();
      if dataBuffer != "" {
        var parsed := parse(dataBuffer);
        if parsed.Some? && parsed.value != "" {
          tokenBuffer.Append(parsed.value);
          assert [parsed.value][..0] == [];
        }
      }
      tokenBuffer.Complete();
      Completions := Completions + 1;
    }

    /** `processStream(response)`: the read loop. A failing `read()` ends
        the loop with the error propagated (`ok` false) and without
        `handleStreamEnd`. */
    method ProcessStream(d: Download, parse: Parser) returns (ok: bool)
      requires Valid()
      modifies this, tokenBuffer
      ensures Valid()
      ensures ok == !d.failed
      ensures var r := FeedChunks(old(buffer), old(dataBuffer), d.chunks, LineStepper(parse));
              buffer == r.buffer && dataBuffer == r.dataBuffer
              && tokenBuffer.State() ==
                 if ok then Completed(AppendAll(old(tokenBuffer.State()), r.tokens + EndTokens(r.dataBuffer, parse)))
                 else AppendAll(old(tokenBuffer.State()), r.tokens)
      ensures Completions == old(Completions) + (if ok then 1 else 0)
    {
      ghost var b0, db0, tb0 := buffer, dataBuffer, tokenBuffer.State();
      var i := 0;
      while i < |d.chunks|
        invariant 0 <= i <= |d.chunks|
        invariant Valid()
        invariant var r := FeedChunks(b0, db0, d.chunks[..i], LineStepper(parse));
                  buffer == r.buffer && dataBuffer == r.dataBuffer
                  && tokenBuffer.State() == AppendAll(tb0, r.tokens)
        invariant Completions == old(Completions)
      {
        ghost var r := FeedChunks(b0, db0, d.chunks[..i], LineStepper(parse));
        ProcessChunk(d.chunks[i], parse);
        assert d.chunks[..i + 1][..i] == d.chunks[..i];
        AppendAllConcat(tb0, r.tokens, ChunkStep(r.buffer, r.dataBuffer, d.chunks[i], LineStepper(parse)).tokens);
        i := i + 1;
      }
      assert d.chunks[..i] == d.chunks;
      if d.failed {
        ok := false;
        return;
      }
      ghost var r := FeedChunks(b0, db0, d.chunks, LineStepper(parse));
      HandleStreamEnd(parse);
      AppendAllConcat(tb0, r.tokens, EndTokens(r.dataBuffer, parse));
      ok := true;
    }
  }
}

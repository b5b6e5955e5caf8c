/** The newline-delimited JSON that Ollama streams back from `/api/chat`,
    as the server-side relays read it with `response.iter_lines()` and
    `json.loads`. Each line is classified by what the relay loop does with
    it; the JSON grammar itself is abstracted away. */
module Ndjson {
  import opened Common

  /** One line of the Ollama stream, as the relay loop sees it:
      - `Blank`: the empty line, skipped by `if line:`;
      - `Unparseable`: `json.loads` raises `JSONDecodeError`, skipped;
      - `Misshapen(error)`: the line parses, but reading
        `chunk.get("message", {}).get("content")` raises (the value is not
        an object), which escapes the inner handler with message `error`;
      - `Chunk(content)`: an object whose `message.content` is `content`,
        or `None` when it is missing. */
  datatype Line = Blank | Unparseable | Misshapen(error: string) | Chunk(content: Option<string>)

  /** A whole upstream response: the lines read, and the error with which
      iterating over the response itself failed after them, if it did. */
  datatype Upstream = Upstream(lines: seq<Line>, brokenWith: Option<string>)

  /** The content a line contributes: a chunk's truthy (non-empty)
      `message.content`, and nothing for every other line. */
  function LineContent(l: Line): seq<string> {
    if l.Chunk? && l.content.Some? && l.content.value != "" then [l.content.value] else []
  }

  /** The error the first misshapen line raises. */
  function FirstError(lines: seq<Line>): Option<string>
    decreases |lines|
  {
    if lines == [] then None
    else
      var before := FirstError(lines[..|lines| - 1]);
      var last := lines[|lines| - 1];
      if before.Some? then before
      else if last.Misshapen? then Some(last.error)
      else None
  }

  /** The contents read before the first misshapen line, in order. */
  function Contents(lines: seq<Line>): seq<string>
    decreases |lines|
  {
    if lines == [] then []
    else
      var init := lines[..|lines| - 1];
      if FirstError(init).Some? then Contents(init)
      else Contents(init) + LineContent(lines[|lines| - 1])
  }

  /** How reading the whole response ends: with the first misshapen line's
      error, else with the error iteration failed with, else normally. */
  function EndedWith(up: Upstream): Option<string> {
    if FirstError(up.lines).Some? then FirstError(up.lines) else up.brokenWith
  }

  /** Everything the relays collect: the concatenation of the contents. */
  function Collected(up: Upstream): string {
    Flatten(Contents(up.lines))
  }

  predicate Noise(l: Line) {
    l.Blank? || l.Unparseable?
  }

  /** Reading `a + b` is reading `a` and then, unless `a` already failed,
      reading `b`: the contents and the failure compose. */
  lemma {:induction false} ContentsAppend(a: seq<Line>, b: seq<Line>)
    ensures FirstError(a + b) == if FirstError(a).Some? then FirstError(a) else FirstError(b)
    ensures Contents(a + b) == Contents(a) + (if FirstError(a).Some? then [] else Contents(b))
    decreases |b|
  {
    if b == [] {
      assert a + b == a;
    } else {
      var init := b[..|b| - 1];
      assert (a + b)[..|a + b| - 1] == a + init;
      assert (a + b)[|a + b| - 1] == b[|b| - 1];
      ContentsAppend(a, init);
    }
  }

  /** Every collected content is non-empty, so each one is worth an
      event. */
  lemma {:induction false} ContentsNonEmpty(lines: seq<Line>)
    ensures forall i :: 0 <= i < |Contents(lines)| ==> Contents(lines)[i] != ""
    decreases |lines|
  {
    if lines != [] {
      ContentsNonEmpty(lines[..|lines| - 1]);
    }
  }

  /** Blank and unparseable lines are skipped without a trace: removing
      one changes neither the contents nor the failure. */
  lemma NoiseSkipped(a: seq<Line>, n: Line, b: seq<Line>)
    requires Noise(n)
    ensures Contents(a + [n] + b) == Contents(a + b)
    ensures FirstError(a + [n] + b) == FirstError(a + b)
  {
    var an := a + [n];
    NoiseAlone(n);
    ContentsAppend(a, [n]);
    assert Contents(an) == Contents(a) && FirstError(an) == FirstError(a);
    ContentsAppend(an, b);
    ContentsAppend(a, b);
  }

  lemma NoiseAlone(n: Line)
    requires Noise(n)
    ensures FirstError([n]) == None && Contents([n]) == []
  {
    assert [n][..0] == [];
  }

  /** A misshapen line ends the reading: whatever follows it contributes
      nothing, and the failure is its error. */
  lemma MisshapenStops(a: seq<Line>, e: string, b: seq<Line>)
    requires FirstError(a).None?
    ensures Contents(a + [Misshapen(e)] + b) == Contents(a)
    ensures FirstError(a + [Misshapen(e)] + b) == Some(e)
  {
    var m := [Misshapen(e)];
    assert m[..0] == [];
    ContentsAppend(a, m);
    ContentsAppend(a + m, b);
  }

  /** One more line read, while nothing has failed yet. */
  lemma ContentsSnoc(lines: seq<Line>, i: nat)
    requires i < |lines| && FirstError(lines[..i]).None?
    ensures FirstError(lines[..i + 1]) == if lines[i].Misshapen? then Some(lines[i].error) else None
    ensures Contents(lines[..i + 1]) == Contents(lines[..i]) + LineContent(lines[i])
  {
    assert lines[..i + 1][..i] == lines[..i];
  }

  /** Once a prefix has failed, the rest of the lines are never looked at. */
  lemma ContentsStop(lines: seq<Line>, i: nat)
    requires i <= |lines| && FirstError(lines[..i]).Some?
    ensures FirstError(lines) == FirstError(lines[..i]) && Contents(lines) == Contents(lines[..i])
  {
    ContentsAppend(lines[..i], lines[i..]);
    assert lines[..i] + lines[i..] == lines;
  }
}

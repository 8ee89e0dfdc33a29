/** `streamChat` (src/pages/AIAgent.tsx): it posts the conversation to the
    chat endpoint and decodes the streamed body. That body is a simplified
    event stream: each `\n`-terminated line is looked at alone; a line
    `data: <json>` carries one delta of the assistant's reply, and the
    payload `[DONE]` ends the stream.

    The decoder keeps a text buffer. Each chunk read from the body is
    appended to it, and then complete lines are cut off its front one at a
    time. `Drain` states what that inner loop does to one buffer, `Feed`
    states what the outer read loop does over the chunks, and
    `StreamEvents` gives the whole sequence of callback calls. The methods
    `DrainLines` and `StreamChat` are the loops themselves, each proved
    equal to its specification.

    `JSON.parse` together with `parsed.choices?.[0]?.delta?.content` is a
    parameter of type `Parser`. The chunks are the strings `TextDecoder`
    has already decoded. */
module ChatStream {
  import opened Text

  /** What `JSON.parse(json)` and the read of `choices[0].delta.content`
      give: either the parse throws, or it succeeds and the content may be
      missing. */
  datatype ParseResult = Unparseable | Parsed(content: Option<string>)

  type Parser = string -> ParseResult

  /** One call of a callback: `onDelta(text)`, `onDone()` or `onError(message)`. */
  datatype Event = Delta(text: string) | Done | Error(message: string)

  /** What `fetch` gives: a rejected promise, or a response with its status
      code and, when `resp.body` is present, that body. */
  datatype Response = NetworkFailure | Http(status: int, body: Option<Body>)

  /** The decoded chunks `reader.read()` yields in turn. When `aborted`
      holds, the read after the last one rejects instead of reporting the end. */
  datatype Body = Body(chunks: seq<string>, aborted: bool)

  /** `resp.ok`: a status in the range 200 to 299. */
  predicate Ok(status: int) {
    200 <= status <= 299
  }

  const RateLimitMessage := "Rate limit exceeded. Please wait a moment."
  const CreditsMessage := "Credits exhausted. Please top up your workspace."
  const ConnectMessage := "Failed to connect to AI. Please try again."

  /** The message reported for a response that is not ok or has no body. */
  function FailureMessage(status: int): string {
    if status == 429 then RateLimitMessage
    else if status == 402 then CreditsMessage
    else ConnectMessage
  }

  const DataPrefix := "data: "
  const DoneMarker := "[DONE]"

  /** A line with one trailing `\r` removed. */
  function StripCR(line: string): string {
    if EndsWith(line, "\r") then line[..|line| - 1] else line
  }

  /** What one complete line, `\n` excluded, asks of the decoder. */
  datatype LineKind = Ignored | Marker | Malformed | Payload(content: Option<string>)

  function Classify(line: string, parse: Parser): LineKind {
    ClassifyStripped(StripCR(line), parse)
  }

  /** What a line asks of the decoder once its `\r` has been removed. */
  function ClassifyStripped(l: string, parse: Parser): LineKind {
    if !StartsWith(l, DataPrefix) then Ignored
    else
      var json := Trim(l[|DataPrefix|..]);
      if json == DoneMarker then Marker
      else match parse(json)
        case Unparseable => Malformed
        case Parsed(c) => Payload(c)
  }

  /** A payload calls `onDelta` only for content that is a non-empty string. */
  function Delivered(content: Option<string>): seq<string> {
    if content.Some? && content.value != "" then [content.value] else []
  }

  /** How the inner line loop ends: no line terminator left in the buffer,
      the `[DONE]` marker (the whole call returns), or a payload that does
      not parse (the loop breaks and the next chunk is awaited). */
  datatype Exit = Exhausted | SawDone | ParseError

  datatype Drained = Drained(deltas: seq<string>, rest: string, exit: Exit)

  function Prepend(ds: seq<string>, d: Drained): Drained {
    Drained(ds + d.deltas, d.rest, d.exit)
  }

  /** The buffer's first line is complete and its payload does not parse. */
  predicate StartsWithMalformedLine(buf: string, parse: Parser) {
    var idx := IndexOf(buf, '\n');
    idx != -1 && Classify(buf[..idx], parse) == Malformed
  }

  /** The inner loop of `streamChat` over the buffer `buf`: the deltas it
      delivers in order, the buffer it leaves and how it ends. Only text up
      to a `\n` is ever taken as a line, so after `Exhausted` the buffer
      left is the unterminated end of `buf`. After a parse failure the buffer
      left starts with the failed line again. */
  function Drain(buf: string, parse: Parser): (r: Drained)
    ensures r.exit == Exhausted ==> '\n' !in r.rest
    decreases |buf|
  {
    var idx := IndexOf(buf, '\n');
    if idx == -1 then Drained([], buf, Exhausted)
    else
      var line, rest := buf[..idx], buf[idx + 1..];
      match Classify(line, parse)
      case Ignored =>
        Drain(rest, parse)
      case Marker =>
        Drained([], rest, SawDone)
      case Malformed =>
        Drained([], StripCR(line) + "\n" + rest, ParseError)
      case Payload(c) =>
        Prepend(Delivered(c), Drain(rest, parse))
  }

  /** Removing one more `\r` from a line whose payload did not parse leaves
      a line whose payload does not parse. */
  lemma MalformedAgain(line: string, rest: string, parse: Parser)
    requires '\n' !in line
    requires Classify(line, parse) == Malformed
    ensures StartsWithMalformedLine(StripCR(line) + "\n" + rest, parse)
  {
    var l := StripCR(line);
    assert '\n' !in l by {
      assert forall k | 0 <= k < |l| :: l[k] == line[k];
    }
    IndexOfFirst(l, '\n', rest);
    assert (l + "\n" + rest)[..|l|] == l;
    ClassifyStripCR(line, parse);
  }

  /** A line is classified as it is once one `\r` has been removed from
      it: removing a second `\r` leaves the `data: ` prefix alone, and
      `trim` would have removed that `\r` from the payload anyway. */
  lemma ClassifyStripCR(line: string, parse: Parser)
    ensures Classify(StripCR(line), parse) == Classify(line, parse)
  {
    var l := StripCR(line);
    if EndsWith(l, "\r") {
      assert StripCR(l) == l[..|l| - 1];
      ClassifyBeforeCR(l, parse);
    } else {
      assert StripCR(l) == l;
    }
  }

  lemma ClassifyBeforeCR(l: string, parse: Parser)
    requires EndsWith(l, "\r")
    ensures ClassifyStripped(l[..|l| - 1], parse) == ClassifyStripped(l, parse)
  {
    PrefixBeforeCR(l);
    if StartsWith(l, DataPrefix) {
      PayloadBeforeCR(l);
    }
  }

  lemma PrefixBeforeCR(l: string)
    requires EndsWith(l, "\r")
    ensures StartsWith(l[..|l| - 1], DataPrefix) <==> StartsWith(l, DataPrefix)
  {
    var l2 := l[..|l| - 1];
    if StartsWith(l, DataPrefix) {
      assert l[|DataPrefix| - 1] == ' ';
      assert l2[..|DataPrefix|] == l[..|DataPrefix|];
    }
    if StartsWith(l2, DataPrefix) {
      assert l[..|DataPrefix|] == l2[..|DataPrefix|];
    }
  }

  lemma PayloadBeforeCR(l: string)
    requires EndsWith(l, "\r") && StartsWith(l, DataPrefix)
    ensures |DataPrefix| < |l|
    ensures Trim(l[..|l| - 1][|DataPrefix|..]) == Trim(l[|DataPrefix|..])
  {
    assert l[|DataPrefix| - 1] == ' ';
    var p := l[..|l| - 1][|DataPrefix|..];
    assert l[|DataPrefix|..] == p + ['\r'];
    TrimIgnoresTrailingSpace(p, '\r');
  }

  /** The state of the outer read loop after some chunks: the deltas
      delivered, whether `[DONE]` ended it, and the buffer. */
  datatype Fed = Fed(deltas: seq<string>, sawDone: bool, buffer: string)

  /** The outer loop of `streamChat`: each chunk is appended to the buffer
      and the buffer is drained; `[DONE]` ends the loop. */
  function Feed(buf: string, chunks: seq<string>, parse: Parser): Fed
    decreases |chunks|
  {
    if chunks == [] then Fed([], false, buf)
    else
      var d := Drain(buf + chunks[0], parse);
      if d.exit == SawDone then Fed(d.deltas, true, d.rest)
      else PrependFed(d.deltas, Feed(d.rest, chunks[1..], parse))
  }

  function PrependFed(ds: seq<string>, f: Fed): Fed {
    Fed(ds + f.deltas, f.sawDone, f.buffer)
  }

  function DeltaEvents(ds: seq<string>): (r: seq<Event>)
    ensures |r| == |ds|
    ensures forall i | 0 <= i < |ds| :: r[i] == Delta(ds[i])
  {
    seq(|ds|, i requires 0 <= i < |ds| => Delta(ds[i]))
  }

  lemma DeltaEventsAppend(a: seq<string>, b: seq<string>)
    ensures DeltaEvents(a) + DeltaEvents(b) == DeltaEvents(a + b)
  {
    var l, r := DeltaEvents(a) + DeltaEvents(b), DeltaEvents(a + b);
    forall i | 0 <= i < |l| ensures l[i] == r[i] {
      if i < |a| {
        assert l[i] == Delta(a[i]);
      } else {
        assert l[i] == DeltaEvents(b)[i - |a|];
      }
    }
  }

  /** The callbacks one call of `streamChat` makes, in order. A rejected
      `fetch` makes none. A response that is not ok or has no body makes one
      `onError`. Otherwise every delta goes to `onDelta`, and `onDone` follows
      unless the body read rejected before `[DONE]` was seen. */
  function StreamEvents(resp: Response, parse: Parser): seq<Event> {
    match resp
    case NetworkFailure => []
    case Http(status, body) =>
      if !Ok(status) || body.None? then [Error(FailureMessage(status))]
      else BodyEvents(body.value, parse)
  }

  /** The callbacks made while the body is read: every delta, then `onDone`
      unless a read rejected before `[DONE]` was seen. */
  function BodyEvents(body: Body, parse: Parser): seq<Event> {
    var f := Feed("", body.chunks, parse);
    DeltaEvents(f.deltas) + (if f.sawDone || !body.aborted then [Done] else [])
  }

  lemma PrependPrepend(a: seq<string>, b: seq<string>, d: Drained)
    ensures Prepend(a, Prepend(b, d)) == Prepend(a + b, d)
  {
    assert a + (b + d.deltas) == (a + b) + d.deltas;
  }

  /** One step of `Drain`: the buffer's first line decides what happens. */
  lemma DrainStep(buf: string, parse: Parser)
    requires '\n' in buf
    ensures var idx := IndexOf(buf, '\n');
      var line := buf[..idx];
      Drain(buf, parse) == AfterLine(Classify(line, parse), StripCR(line), buf[idx + 1..], parse)
  {
  }

  /** The inner `while ((idx = buf.indexOf("\n")) !== -1)` loop. */
  method DrainLines(buf0: string, parse: Parser) returns (r: Drained)
    ensures r == Drain(buf0, parse)
  {
    var buf := buf0;
    var deltas: seq<string> := [];
    while '\n' in buf
      invariant Drain(buf0, parse) == Prepend(deltas, Drain(buf, parse))
      decreases |buf|
    {
      DrainStep(buf, parse);
      var idx := IndexOf(buf, '\n');
      var raw := buf[..idx];
      buf := buf[idx + 1..];
      var k, line := ClassifyLine(raw, parse);
      match k
      case Ignored =>
      case Marker =>
        assert deltas + [] == deltas;
        return Drained(deltas, buf, SawDone);
      case Malformed =>
        assert deltas + [] == deltas;
        return Drained(deltas, line + "\n" + buf, ParseError);
      case Payload(content) =>
        ghost var before := deltas;
        if content.Some? && content.value != "" {
          deltas := deltas + [content.value];
        }
        assert deltas == before + Delivered(content);
        PrependPrepend(before, Delivered(content), Drain(buf, parse));
    }
    assert deltas + [] == deltas;
    r := Drained(deltas, buf, Exhausted);
  }

  /** The loop body's handling of one line `raw`: a trailing `\r` is
      removed, a line without the `data: ` prefix is skipped, and the
      trimmed payload is either `[DONE]` or handed to `JSON.parse`. */
  method ClassifyLine(raw: string, parse: Parser) returns (k: LineKind, line: string)
    ensures k == Classify(raw, parse) && line == StripCR(raw)
  {
    line := raw;
    if EndsWith(line, "\r") {
      line := line[..|line| - 1];
    }
    if !StartsWith(line, DataPrefix) {
      return Ignored, line;
    }
    var json := Trim(line[|DataPrefix|..]);
    if json == DoneMarker {
      return Marker, line;
    }
    match parse(json)
    case Unparseable =>
      k := Malformed;
    case Parsed(content) =>
      k := Payload(content);
  }

  /** The body of `streamChat`, with the callbacks it calls as its result. */
  method StreamChat(resp: Response, parse: Parser) returns (events: seq<Event>)
    ensures events == StreamEvents(resp, parse)
  {
    if resp.NetworkFailure? {
      return [];
    }
    if !Ok(resp.status) || resp.body.None? {
      if resp.status == 429 {
        return [Error(RateLimitMessage)];
      }
      if resp.status == 402 {
        return [Error(CreditsMessage)];
      }
      return [Error(ConnectMessage)];
    }
    events := ReadBody(resp.body.value, parse);
  }

  lemma FeedStep(buf: string, chunks: seq<string>, i: nat, parse: Parser)
    requires i < |chunks|
    ensures var d := Drain(buf + chunks[i], parse);
      Feed(buf, chunks[i..], parse) ==
        if d.exit == SawDone then Fed(d.deltas, true, d.rest)
        else PrependFed(d.deltas, Feed(d.rest, chunks[i + 1..], parse))
  {
    assert chunks[i..][0] == chunks[i] && chunks[i..][1..] == chunks[i + 1..];
  }

  lemma PrependFedPrependFed(a: seq<string>, b: seq<string>, f: Fed)
    ensures PrependFed(a, PrependFed(b, f)) == PrependFed(a + b, f)
  {
    assert a + (b + f.deltas) == (a + b) + f.deltas;
  }

  /** A chunk whose line loop does not see `[DONE]` adds its deltas to
      those delivered and leaves its buffer to the next chunk. */
  lemma FeedContinues(delivered: seq<string>, buf: string, chunks: seq<string>, i: nat, parse: Parser)
    requires i < |chunks| && Drain(buf + chunks[i], parse).exit != SawDone
    ensures var d := Drain(buf + chunks[i], parse);
      PrependFed(delivered, Feed(buf, chunks[i..], parse)) == PrependFed(delivered + d.deltas, Feed(d.rest, chunks[i + 1..], parse))
  {
    var d := Drain(buf + chunks[i], parse);
    FeedStep(buf, chunks, i, parse);
    PrependFedPrependFed(delivered, d.deltas, Feed(d.rest, chunks[i + 1..], parse));
  }

  /** A chunk whose line loop sees `[DONE]` ends the read loop. */
  lemma FeedStops(delivered: seq<string>, buf: string, chunks: seq<string>, i: nat, parse: Parser)
    requires i < |chunks| && Drain(buf + chunks[i], parse).exit == SawDone
    ensures var d := Drain(buf + chunks[i], parse);
      PrependFed(delivered, Feed(buf, chunks[i..], parse)) == Fed(delivered + d.deltas, true, d.rest)
  {
    FeedStep(buf, chunks, i, parse);
  }

  /** The read loop of `streamChat`, from `getReader()` to the final `onDone()`. */
  method ReadBody(body: Body, parse: Parser) returns (events: seq<Event>)
    ensures events == BodyEvents(body, parse)
  {
    var chunks := body.chunks;
    var buf := "";
    var i := 0;
    events := [];
    ghost var delivered: seq<string> := [];
    while i < |chunks|
      invariant 0 <= i <= |chunks|
      invariant events == DeltaEvents(delivered)
      invariant Feed("", chunks, parse) == PrependFed(delivered, Feed(buf, chunks[i..], parse))
    {
      var d := DrainLines(buf + chunks[i], parse);
      events := events + DeltaEvents(d.deltas);
      DeltaEventsAppend(delivered, d.deltas);
      if d.exit == SawDone {
        FeedStops(delivered, buf, chunks, i, parse);
        BodyEventsAfter(body, delivered + d.deltas, true, d.rest, parse);
        events := events + [Done];
        return;
      }
      FeedContinues(delivered, buf, chunks, i, parse);
      delivered := delivered + d.deltas;
      buf := d.rest;
      i := i + 1;
    }
    assert chunks[i..] == [];
    assert delivered + [] == delivered;
    BodyEventsAfter(body, delivered, false, buf, parse);
    if body.aborted {
      return;
    }
    events := events + [Done];
  }

  /** The callbacks once the read loop has ended in the state `Fed(ds,
      sawDone, buf)`. */
  lemma BodyEventsAfter(body: Body, ds: seq<string>, sawDone: bool, buf: string, parse: Parser)
    requires Feed("", body.chunks, parse) == Fed(ds, sawDone, buf)
    ensures BodyEvents(body, parse) == DeltaEvents(ds) + (if sawDone || !body.aborted then [Done] else [])
  {
  }

  // ---------------------------------------------------------------------
  // Properties of one buffer

  /** What `Drain` gives for a buffer whose first line is of kind `k`, is
      `stripped` once its `\r` is removed, and is followed by `rest`. */
  function AfterLine(k: LineKind, stripped: string, rest: string, parse: Parser): Drained {
    match k
    case Ignored => Drain(rest, parse)
    case Marker => Drained([], rest, SawDone)
    case Malformed => Drained([], stripped + "\n" + rest, ParseError)
    case Payload(c) => Prepend(Delivered(c), Drain(rest, parse))
  }

  /** Only the text before the first `\n` is a line, and the buffer goes on
      with exactly the text after that `\n`. */
  lemma DrainCutsFirstLine(line: string, rest: string, parse: Parser)
    requires '\n' !in line
    ensures Drain(line + "\n" + rest, parse) == AfterLine(Classify(line, parse), StripCR(line), rest, parse)
  {
    var buf := line + "\n" + rest;
    IndexOfFirst(line, '\n', rest);
    assert buf[..|line|] == line && buf[|line| + 1..] == rest;
    DrainStep(buf, parse);
  }

  /** A buffer without `\n` is left as it is: an unterminated line waits for
      more data. */
  lemma UnterminatedTailStays(tail: string, parse: Parser)
    requires '\n' !in tail
    ensures Drain(tail, parse) == Drained([], tail, Exhausted)
  {
  }

  /** A line ending in `\r` is handled as if the `\r` were not there. */
  lemma CarriageReturnIgnored(line: string, rest: string, parse: Parser)
    requires '\n' !in line && !EndsWith(line, "\r")
    ensures Drain(line + "\r\n" + rest, parse) == Drain(line + "\n" + rest, parse)
  {
    var withCR := line + "\r";
    assert '\n' !in withCR;
    assert withCR + "\n" + rest == line + "\r\n" + rest;
    assert StripCR(withCR) == line && StripCR(line) == line;
    assert Classify(withCR, parse) == Classify(line, parse);
    DrainCutsFirstLine(withCR, rest, parse);
    DrainCutsFirstLine(line, rest, parse);
  }

  /** A line that does not start with `data: ` delivers nothing and does not
      stop the loop. */
  lemma NonDataLineIgnored(line: string, rest: string, parse: Parser)
    requires '\n' !in line && !StartsWith(StripCR(line), DataPrefix)
    ensures Drain(line + "\n" + rest, parse) == Drain(rest, parse)
  {
    DrainCutsFirstLine(line, rest, parse);
  }

  /** A payload that trims to `[DONE]` ends the loop at once with nothing
      delivered, however many lines follow it in the buffer. */
  lemma DoneMarkerStops(line: string, rest: string, parse: Parser)
    requires '\n' !in line && Classify(line, parse) == Marker
    ensures Drain(line + "\n" + rest, parse) == Drained([], rest, SawDone)
  {
    DrainCutsFirstLine(line, rest, parse);
  }

  /** A payload that parses delivers its content first when that content is a
      non-empty string, and nothing otherwise. */
  lemma PayloadDelivered(line: string, rest: string, parse: Parser, c: Option<string>)
    requires '\n' !in line && Classify(line, parse) == Payload(c)
    ensures var r := Drain(line + "\n" + rest, parse);
      r.deltas == (if c.Some? && c.value != "" then [c.value] else []) + Drain(rest, parse).deltas
      && r.rest == Drain(rest, parse).rest && r.exit == Drain(rest, parse).exit
  {
    DrainCutsFirstLine(line, rest, parse);
  }

  /** When a payload does not parse, the line, without its `\r`, is put back
      in front of the rest of the buffer and the loop stops. */
  lemma MalformedLinePushedBack(line: string, rest: string, parse: Parser)
    requires '\n' !in line && Classify(line, parse) == Malformed
    ensures Drain(line + "\n" + rest, parse) == Drained([], StripCR(line) + "\n" + rest, ParseError)
  {
    DrainCutsFirstLine(line, rest, parse);
  }

  /** `lines`, each followed by `\n`. */
  function Terminated(lines: seq<string>): string
    decreases |lines|
  {
    if lines == [] then "" else lines[0] + "\n" + Terminated(lines[1..])
  }

  predicate IsLine(line: string) {
    '\n' !in line
  }

  /** None of the lines is `[DONE]` or a payload that does not parse. */
  predicate Flowing(lines: seq<string>, parse: Parser)
    decreases |lines|
  {
    lines == [] ||
    (IsLine(lines[0]) && (Classify(lines[0], parse).Ignored? || Classify(lines[0], parse).Payload?)
     && Flowing(lines[1..], parse))
  }


  /** What one line of kind `k` delivers. */
  function LineDeltas(k: LineKind): seq<string> {
    if k.Payload? then Delivered(k.content) else []
  }

  /** The contents the payload lines deliver, in line order. */
  function PayloadDeltas(lines: seq<string>, parse: Parser): seq<string>
    decreases |lines|
  {
    if lines == [] then [] else LineDeltas(Classify(lines[0], parse)) + PayloadDeltas(lines[1..], parse)
  }

  lemma {:induction false} DrainAfterLines(lines: seq<string>, text: string, parse: Parser)
    requires Flowing(lines, parse)
    ensures Drain(Terminated(lines) + text, parse) == Prepend(PayloadDeltas(lines, parse), Drain(text, parse))
    decreases |lines|
  {
    if lines != [] {
      var tl := Terminated(lines[1..]);
      assert Terminated(lines) + text == lines[0] + "\n" + (tl + text);
      DrainAfterLines(lines[1..], text, parse);
      DrainAfterFlowingLine(lines[0], tl + text, PayloadDeltas(lines[1..], parse), Drain(text, parse), parse);
    } else {
      assert Terminated(lines) + text == text;
    }
  }

  /** A line that is skipped or delivers a payload puts its delta in front
      of what the rest of the buffer delivers. */
  lemma DrainAfterFlowingLine(line: string, rest: string, ds: seq<string>, after: Drained, parse: Parser)
    requires IsLine(line) && (Classify(line, parse).Ignored? || Classify(line, parse).Payload?)
    requires Drain(rest, parse) == Prepend(ds, after)
    ensures Drain(line + "\n" + rest, parse) == Prepend(LineDeltas(Classify(line, parse)) + ds, after)
  {
    DrainCutsFirstLine(line, rest, parse);
    PrependPrepend(LineDeltas(Classify(line, parse)), ds, after);
    if Classify(line, parse).Ignored? {
      assert [] + ds == ds;
    }
  }

  /** Complete lines with no `[DONE]` and no parse failure deliver their
      contents in line order, and the unterminated tail stays buffered. */
  lemma FlowingLinesDeliverInOrder(lines: seq<string>, tail: string, parse: Parser)
    requires Flowing(lines, parse) && '\n' !in tail
    ensures Drain(Terminated(lines) + tail, parse) == Drained(PayloadDeltas(lines, parse), tail, Exhausted)
  {
    DrainAfterLines(lines, tail, parse);
    assert PayloadDeltas(lines, parse) + [] == PayloadDeltas(lines, parse);
  }

  /** After `[DONE]` nothing more is delivered, whatever follows it. */
  lemma LinesBeforeDoneOnly(lines: seq<string>, marker: string, after: string, parse: Parser)
    requires Flowing(lines, parse) && '\n' !in marker && Classify(marker, parse) == Marker
    ensures Drain(Terminated(lines) + marker + "\n" + after, parse) == Drained(PayloadDeltas(lines, parse), after, SawDone)
  {
    var tail := marker + "\n" + after;
    Associative(Terminated(lines), marker, "\n");
    Associative(Terminated(lines), marker + "\n", after);
    assert Drain(Terminated(lines) + tail, parse) == Prepend(PayloadDeltas(lines, parse), Drain(tail, parse)) by {
      DrainAfterLines(lines, tail, parse);
    }
    assert Drain(tail, parse) == Drained([], after, SawDone) by {
      DoneMarkerStops(marker, after, parse);
    }
    assert PayloadDeltas(lines, parse) + [] == PayloadDeltas(lines, parse);
  }

  /** A buffer is the text before a `\n` at `idx`, that `\n`, and the rest. */
  lemma CutAt(buf: string, more: string, idx: int)
    requires 0 <= idx < |buf| && buf[idx] == '\n'
    ensures buf + more == buf[..idx] + "\n" + (buf[idx + 1..] + more)
  {
    assert buf == buf[..idx] + [buf[idx]] + buf[idx + 1..];
  }

  /** What draining `d`'s buffer with `more` appended gives, in terms of
      `d`: a loop that ran out of lines goes on with the appended text; a
      loop that stopped stops at the same place. */
  function DrainedWith(d: Drained, more: string, parse: Parser): Drained {
    if d.exit == Exhausted then Prepend(d.deltas, Drain(d.rest + more, parse))
    else Drained(d.deltas, d.rest + more, d.exit)
  }

  lemma AfterLineAppend(k: LineKind, l: string, rest: string, more: string, parse: Parser)
    requires Drain(rest + more, parse) == DrainedWith(Drain(rest, parse), more, parse)
    ensures AfterLine(k, l, rest + more, parse) == DrainedWith(AfterLine(k, l, rest, parse), more, parse)
  {
    match k
    case Ignored =>
    case Marker =>
    case Malformed =>
      Associative(l + "\n", rest, more);
    case Payload(c) =>
      var d := Drain(rest, parse);
      if d.exit == Exhausted {
        PrependPrepend(Delivered(c), d.deltas, Drain(d.rest + more, parse));
      }
  }

  lemma Associative(a: string, b: string, c: string)
    ensures a + b + c == a + (b + c)
  {
  }

  /** Appending text to a buffer only adds to what is left of it: a loop
      that ran out of lines goes on with the appended text; a loop that
      stopped stops at the same place. */
  lemma {:induction false} DrainAppend(a: string, b: string, parse: Parser)
    ensures Drain(a + b, parse) == DrainedWith(Drain(a, parse), b, parse)
    decreases |a|, 2
  {
    if '\n' !in a {
      AppendToUnterminated(a, b, parse);
    } else {
      DrainAppendLine(a, b, parse);
    }
  }

  lemma {:induction false} DrainAppendLine(a: string, b: string, parse: Parser)
    requires '\n' in a
    ensures Drain(a + b, parse) == DrainedWith(Drain(a, parse), b, parse)
    decreases |a|, 1
  {
    var idx := IndexOf(a, '\n');
    CutAt(a, b, idx);
    CutAt(a, "", idx);
    assert a + "" == a;
    DrainAppendCut(a[..idx], a[idx + 1..], b, parse);
  }

  lemma {:induction false} DrainAppendCut(line: string, rest: string, b: string, parse: Parser)
    requires '\n' !in line
    ensures Drain(line + "\n" + (rest + b), parse) == DrainedWith(Drain(line + "\n" + rest, parse), b, parse)
    decreases |line| + 1 + |rest|, 0
  {
    DrainCutsFirstLine(line, rest, parse);
    DrainCutsFirstLine(line, rest + b, parse);
    DrainAppend(rest, b, parse);
    AfterLineAppend(Classify(line, parse), StripCR(line), rest, b, parse);
  }

  lemma AppendToUnterminated(a: string, b: string, parse: Parser)
    requires '\n' !in a
    ensures Drain(a + b, parse) == DrainedWith(Drain(a, parse), b, parse)
  {
    assert Drain(a, parse) == Drained([], a, Exhausted);
    assert [] + Drain(a + b, parse).deltas == Drain(a + b, parse).deltas;
  }

  // ---------------------------------------------------------------------
  // Properties of the read loop

  /** After a parse failure the buffer left starts with the failed line
      again. */
  lemma {:induction false} ParseErrorKeepsLine(buf: string, parse: Parser)
    ensures Drain(buf, parse).exit == ParseError ==> StartsWithMalformedLine(Drain(buf, parse).rest, parse)
    decreases |buf|
  {
    if '\n' in buf {
      var idx := IndexOf(buf, '\n');
      var line, rest := buf[..idx], buf[idx + 1..];
      CutAt(buf, "", idx);
      assert buf + "" == buf;
      DrainCutsFirstLine(line, rest, parse);
      match Classify(line, parse)
      case Ignored => ParseErrorKeepsLine(rest, parse);
      case Marker =>
      case Malformed => MalformedAgain(line, rest, parse);
      case Payload(c) => ParseErrorKeepsLine(rest, parse);
    }
  }

  /** A buffer that starts with a line whose payload does not parse stops
      the line loop at once, whatever is appended to it. */
  lemma MalformedStartStops(buf: string, more: string, parse: Parser)
    requires StartsWithMalformedLine(buf, parse)
    ensures Drain(buf + more, parse).deltas == [] && Drain(buf + more, parse).exit == ParseError
  {
    FirstLineKept(buf, more);
    DrainStep(buf + more, parse);
  }

  /** Appending text to a buffer that holds a `\n` leaves its first line as
      it is. */
  lemma FirstLineKept(buf: string, more: string)
    requires '\n' in buf
    ensures IndexOf(buf + more, '\n') == IndexOf(buf, '\n')
    ensures (buf + more)[..IndexOf(buf, '\n')] == buf[..IndexOf(buf, '\n')]
  {
    var idx := IndexOf(buf, '\n');
    CutAt(buf, more, idx);
    IndexOfFirst(buf[..idx], '\n', buf[idx + 1..] + more);
  }

  /** Once a payload has failed to parse, the same line is parsed again at
      the front of the buffer after every later chunk and fails again: no
      later delta is delivered and a later `[DONE]` is never seen. */
  lemma {:induction false} StalledAfterParseError(buf: string, chunks: seq<string>, parse: Parser)
    requires StartsWithMalformedLine(buf, parse)
    ensures Feed(buf, chunks, parse).deltas == [] && !Feed(buf, chunks, parse).sawDone
    decreases |chunks|
  {
    if chunks != [] {
      MalformedStartStops(buf, chunks[0], parse);
      ParseErrorKeepsLine(buf + chunks[0], parse);
      var d := Drain(buf + chunks[0], parse);
      StalledAfterParseError(d.rest, chunks[1..], parse);
      assert Feed(buf, chunks, parse) == PrependFed([], Feed(d.rest, chunks[1..], parse));
    }
  }

  /** All the chunks one after the other. */
  function Concat(chunks: seq<string>): string
    decreases |chunks|
  {
    if chunks == [] then "" else chunks[0] + Concat(chunks[1..])
  }

  /** How the body is cut into chunks does not matter: the read loop
      delivers what one pass of the line loop over all the text together
      would, and stops on `[DONE]` exactly when that pass would. */
  lemma {:induction false} FeedReadsConcatenation(buf: string, chunks: seq<string>, parse: Parser)
    requires '\n' !in buf
    ensures Feed(buf, chunks, parse).deltas == Drain(buf + Concat(chunks), parse).deltas
    ensures Feed(buf, chunks, parse).sawDone == (Drain(buf + Concat(chunks), parse).exit == SawDone)
    decreases |chunks|, 1
  {
    if chunks == [] {
      assert buf + Concat(chunks) == buf;
    } else {
      var c, cs := chunks[0], chunks[1..];
      assert buf + Concat(chunks) == (buf + c) + Concat(cs);
      DrainAppend(buf + c, Concat(cs), parse);
      match Drain(buf + c, parse).exit
      case SawDone =>
      case ParseError => FedAfterParseError(buf, chunks, parse);
      case Exhausted => FedAfterExhausted(buf, chunks, parse);
    }
  }

  lemma FedAfterParseError(buf: string, chunks: seq<string>, parse: Parser)
    requires chunks != [] && Drain(buf + chunks[0], parse).exit == ParseError
    ensures Feed(buf, chunks, parse).deltas == Drain(buf + chunks[0], parse).deltas
    ensures !Feed(buf, chunks, parse).sawDone
  {
    var d := Drain(buf + chunks[0], parse);
    ParseErrorKeepsLine(buf + chunks[0], parse);
    StalledAfterParseError(d.rest, chunks[1..], parse);
    assert d.deltas + [] == d.deltas;
  }

  lemma {:induction false} FedAfterExhausted(buf: string, chunks: seq<string>, parse: Parser)
    requires chunks != [] && Drain(buf + chunks[0], parse).exit == Exhausted
    ensures var d := Drain(buf + chunks[0], parse);
      Feed(buf, chunks, parse).deltas == d.deltas + Drain(d.rest + Concat(chunks[1..]), parse).deltas
      && Feed(buf, chunks, parse).sawDone == (Drain(d.rest + Concat(chunks[1..]), parse).exit == SawDone)
    decreases |chunks|, 0
  {
    var d := Drain(buf + chunks[0], parse);
    FeedReadsConcatenation(d.rest, chunks[1..], parse);
  }

  /** Once `[DONE]` has been seen, later chunks make no difference. */
  lemma {:induction false} DoneIgnoresLaterChunks(buf: string, chunks: seq<string>, more: seq<string>, parse: Parser)
    requires Feed(buf, chunks, parse).sawDone
    ensures Feed(buf, chunks + more, parse) == Feed(buf, chunks, parse)
    decreases |chunks|
  {
    assert chunks != [];
    assert (chunks + more)[0] == chunks[0];
    var d := Drain(buf + chunks[0], parse);
    if d.exit != SawDone {
      assert (chunks + more)[1..] == chunks[1..] + more;
      DoneIgnoresLaterChunks(d.rest, chunks[1..], more, parse);
    }
  }

  // ---------------------------------------------------------------------
  // Properties of one call of streamChat

  /** A response that is not ok or has no body calls `onError` once, with
      the message its status selects, and never `onDone`. */
  lemma FailedResponseReportsError(status: int, body: Option<Body>, parse: Parser)
    requires !Ok(status) || body.None?
    ensures StreamEvents(Http(status, body), parse) == [Error(FailureMessage(status))]
    ensures status == 429 ==> FailureMessage(status) == "Rate limit exceeded. Please wait a moment."
    ensures status == 402 ==> FailureMessage(status) == "Credits exhausted. Please top up your workspace."
    ensures status != 429 && status != 402 ==> FailureMessage(status) == "Failed to connect to AI. Please try again."
    ensures Done !in StreamEvents(Http(status, body), parse)
  {
  }

  /** Every callback but the last is `onDelta`; `onDone` and `onError` come at
      most once and only last, and never both. */
  lemma CallbackShape(resp: Response, parse: Parser)
    ensures var ev := StreamEvents(resp, parse);
      (forall i | 0 <= i < |ev| - 1 :: ev[i].Delta?)
      && (ev != [] && ev[|ev| - 1].Error? ==> |ev| == 1)
  {
  }

  /** For an ok response with a body, the callbacks are those of one pass of
      the line loop over the whole body text. */
  lemma BodyReadAsOneText(body: Body, parse: Parser)
    ensures var d := Drain(Concat(body.chunks), parse);
      BodyEvents(body, parse) == DeltaEvents(d.deltas) + (if d.exit == SawDone || !body.aborted then [Done] else [])
  {
    FeedReadsConcatenation("", body.chunks, parse);
    assert "" + Concat(body.chunks) == Concat(body.chunks);
  }

  /** For an ok response whose body, however it is cut into chunks, reads
      as complete lines with neither `[DONE]` nor a parse failure, the
      callbacks are the payloads' contents in order, then `onDone` unless
      the read rejected. */
  lemma WellFormedStream(status: int, lines: seq<string>, body: Body, parse: Parser)
    requires Ok(status) && Flowing(lines, parse) && Concat(body.chunks) == Terminated(lines)
    ensures StreamEvents(Http(status, Some(body)), parse)
        == DeltaEvents(PayloadDeltas(lines, parse)) + (if body.aborted then [] else [Done])
  {
    var text := Terminated(lines);
    assert Drain(text, parse) == Drained(PayloadDeltas(lines, parse), "", Exhausted) by {
      FlowingLinesDeliverInOrder(lines, "", parse);
      assert text + "" == text;
    }
    BodyReadAsOneText(body, parse);
  }
}

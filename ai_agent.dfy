/** The `AIAgent` page (src/pages/AIAgent.tsx): the conversation, the input
    field, the loading flag and the error banner, and the `send` handler
    that appends the user's message, calls `streamChat` and folds its
    callbacks back into the state.

    The callbacks `onDelta`, `onDone` and `onError` are taken in the order
    `StreamChat` reports them, and every `setMessages` updater is applied
    as soon as it is queued. */
module AIAgent {
  import opened Text
  import opened ChatStream

  datatype Role = User | Assistant

  /** `{ role, content }`. */
  datatype Msg = Msg(role: Role, content: string)

  predicate EndsWithAssistant(msgs: seq<Msg>) {
    msgs != [] && msgs[|msgs| - 1].role == Assistant
  }

  /** The `setMessages` updater queued by `upsert`: the last message, when it
      is the assistant's, has its content replaced by the text so far;
      otherwise a new assistant message with that text is appended. */
  function UpsertAssistant(prev: seq<Msg>, soFar: string): (r: seq<Msg>)
    ensures EndsWithAssistant(prev) ==>
      |r| == |prev| && r[..|prev| - 1] == prev[..|prev| - 1] && r[|prev| - 1] == Msg(Assistant, soFar)
    ensures !EndsWithAssistant(prev) ==> |r| == |prev| + 1 && r[..|prev|] == prev && r[|prev|] == Msg(Assistant, soFar)
    ensures EndsWithAssistant(r)
  {
    if EndsWithAssistant(prev) then
      seq(|prev|, i requires 0 <= i < |prev| => if i == |prev| - 1 then prev[i].(content := soFar) else prev[i])
    else
      prev + [Msg(Assistant, soFar)]
  }

  /** The conversation without a trailing assistant message. */
  function WithoutReply(msgs: seq<Msg>): seq<Msg> {
    if EndsWithAssistant(msgs) then msgs[..|msgs| - 1] else msgs
  }

  /** The messages after `upsert` has been called with each of `ds` in turn,
      `soFar` being the text `assistantSoFar` held before. */
  function Upserted(prev: seq<Msg>, soFar: string, ds: seq<string>): seq<Msg>
    decreases |ds|
  {
    if ds == [] then prev
    else Upserted(UpsertAssistant(prev, soFar + ds[0]), soFar + ds[0], ds[1..])
  }

  /** However many chunks arrive, the conversation ends with exactly one
      assistant message, whose text is everything received so far, the
      chunks concatenated in order. */
  lemma {:induction false} UpsertsAccumulate(prev: seq<Msg>, soFar: string, ds: seq<string>)
    requires ds != []
    ensures Upserted(prev, soFar, ds) == WithoutReply(prev) + [Msg(Assistant, soFar + Concat(ds))]
    decreases |ds|
  {
    var next := UpsertAssistant(prev, soFar + ds[0]);
    UpsertReplaces(prev, soFar + ds[0]);
    ReplyRemoved(WithoutReply(prev), soFar + ds[0]);
    Associative(soFar, ds[0], Concat(ds[1..]));
    if ds[1..] != [] {
      UpsertsAccumulate(next, soFar + ds[0], ds[1..]);
    } else {
      assert ds[0] + Concat(ds[1..]) == ds[0];
    }
  }

  /** An upsert leaves the conversation without its reply and then the new
      reply. */
  lemma UpsertReplaces(prev: seq<Msg>, soFar: string)
    ensures UpsertAssistant(prev, soFar) == WithoutReply(prev) + [Msg(Assistant, soFar)]
  {
    var r := UpsertAssistant(prev, soFar);
    if EndsWithAssistant(prev) {
      assert r == r[..|prev| - 1] + [r[|prev| - 1]];
    }
  }

  lemma ReplyRemoved(base: seq<Msg>, soFar: string)
    ensures WithoutReply(base + [Msg(Assistant, soFar)]) == base
  {
    assert (base + [Msg(Assistant, soFar)])[..|base|] == base;
  }

  /** The page state: `messages`, `input`, `isLoading`, `error`. */
  datatype Chat = Chat(messages: seq<Msg>, input: string, isLoading: bool, error: Option<string>)

  /** The guard at the head of `send`: the text has something besides
      white space and no reply is being awaited. */
  predicate Accepts(text: string, isLoading: bool) {
    Trim(text) != "" && !isLoading
  }

  /** The state after the callbacks `events` have run; `soFar` is
      `assistantSoFar` before the first of them. */
  function Dispatch(c: Chat, soFar: string, events: seq<Event>): Chat
    decreases |events|
  {
    if events == [] then c
    else match events[0]
      case Delta(t) => Dispatch(c.(messages := UpsertAssistant(c.messages, soFar + t)), soFar + t, events[1..])
      case Done => Dispatch(c.(isLoading := false), soFar, events[1..])
      case Error(e) => Dispatch(c.(error := Some(e), isLoading := false), soFar, events[1..])
  }

  /** `send(text)`: refused by the guard, or the user's trimmed text is
      appended, the input cleared, loading set and the error cleared, and
      then the callbacks of `streamChat` run. */
  function SendSpec(c: Chat, text: string, resp: Response, parse: Parser): Chat {
    if !Accepts(text, c.isLoading) then c
    else
      var started := Chat(c.messages + [Msg(User, Trim(text))], "", true, None);
      Dispatch(started, "", StreamEvents(resp, parse))
  }

  lemma {:induction false} DispatchDeltas(c: Chat, soFar: string, ds: seq<string>, tail: seq<Event>)
    ensures Dispatch(c, soFar, DeltaEvents(ds) + tail)
         == Dispatch(c.(messages := Upserted(c.messages, soFar, ds)), soFar + Concat(ds), tail)
    decreases |ds|
  {
    if ds == [] {
      assert DeltaEvents(ds) + tail == tail;
      assert soFar + Concat(ds) == soFar;
    } else {
      var evs := DeltaEvents(ds) + tail;
      assert evs[0] == Delta(ds[0]);
      assert evs[1..] == DeltaEvents(ds[1..]) + tail;
      var next := c.(messages := UpsertAssistant(c.messages, soFar + ds[0]));
      DispatchDeltas(next, soFar + ds[0], ds[1..], tail);
      assert soFar + ds[0] + Concat(ds[1..]) == soFar + Concat(ds);
    }
  }

  /** A `send` refused by its guard (white-space-only text, or a reply still
      awaited) changes nothing. */
  lemma RefusedSendChangesNothing(c: Chat, text: string, resp: Response, parse: Parser)
    requires Trim(text) == "" || c.isLoading
    ensures SendSpec(c, text, resp, parse) == c
  {
  }

  /** An accepted `send` runs the callbacks from the state with the user's
      message appended, the input empty, loading set and no error. */
  lemma AcceptedSend(c: Chat, text: string, resp: Response, parse: Parser)
    requires Accepts(text, c.isLoading)
    ensures SendSpec(c, text, resp, parse) == Dispatch(Chat(Asked(c, text), "", true, None), "", StreamEvents(resp, parse))
  {
  }

  /** The assistant message the deltas `ds` leave: none when there was no
      delta, otherwise one holding all of them in order. */
  function Reply(ds: seq<string>): seq<Msg> {
    if ds == [] then [] else [Msg(Assistant, Concat(ds))]
  }

  /** The conversation an accepted `send` starts from. */
  function Asked(c: Chat, text: string): seq<Msg> {
    c.messages + [Msg(User, Trim(text))]
  }

  /** When `fetch` rejects, the user's message stays, the input is empty,
      no error is shown and loading is never cleared. */
  lemma SendWithoutResponse(c: Chat, text: string, parse: Parser)
    requires Accepts(text, c.isLoading)
    ensures SendSpec(c, text, NetworkFailure, parse) == Chat(Asked(c, text), "", true, None)
  {
  }

  /** A response that is not ok or has no body: the user's message stays,
      the input is empty, loading is cleared and the message the status
      selects is shown. */
  lemma SendFailedResponse(c: Chat, text: string, status: int, body: Option<Body>, parse: Parser)
    requires Accepts(text, c.isLoading)
    requires !Ok(status) || body.None?
    ensures SendSpec(c, text, Http(status, body), parse) == Chat(Asked(c, text), "", false, Some(FailureMessage(status)))
  {
    var started := Chat(Asked(c, text), "", true, None);
    var events := StreamEvents(Http(status, body), parse);
    assert events == [Error(FailureMessage(status))];
    assert events[1..] == [];
    var failed := started.(error := Some(FailureMessage(status)), isLoading := false);
    assert Dispatch(started, "", events) == Dispatch(failed, "", []);
  }

  /** A body that was read: after the user's message comes one assistant
      message holding every delta in order, when there was any; loading is
      cleared unless the read rejected before `[DONE]`; no error is shown. */
  lemma SendStreamedReply(c: Chat, text: string, status: int, body: Body, parse: Parser)
    requires Accepts(text, c.isLoading) && Ok(status)
    ensures var r := SendSpec(c, text, Http(status, Some(body)), parse);
      var f := Feed("", body.chunks, parse);
      r == Chat(Asked(c, text) + Reply(f.deltas), "", !f.sawDone && body.aborted, None)
  {
    var asked := Asked(c, text);
    var started := Chat(asked, "", true, None);
    var f := Feed("", body.chunks, parse);
    var tail: seq<Event> := if f.sawDone || !body.aborted then [Done] else [];
    assert StreamEvents(Http(status, Some(body)), parse) == DeltaEvents(f.deltas) + tail;
    DispatchDeltas(started, "", f.deltas, tail);
    var after := started.(messages := Upserted(asked, "", f.deltas));
    DispatchFinalDone(after, "" + Concat(f.deltas), tail);
    UpsertedAfterAsking(asked, f.deltas);
  }

  /** The event after the deltas, when there is one, is `onDone`. */
  lemma DispatchFinalDone(c: Chat, soFar: string, tail: seq<Event>)
    requires tail == [] || tail == [Done]
    ensures Dispatch(c, soFar, tail) == if tail == [] then c else c.(isLoading := false)
  {
    if tail != [] {
      assert tail[1..] == [];
    }
  }

  /** After the user's message, the deltas leave exactly the reply. */
  lemma UpsertedAfterAsking(asked: seq<Msg>, ds: seq<string>)
    requires asked != [] && asked[|asked| - 1].role == User
    ensures Upserted(asked, "", ds) == asked + Reply(ds)
  {
    if ds != [] {
      UpsertsAccumulate(asked, "", ds);
      assert WithoutReply(asked) == asked;
      assert "" + Concat(ds) == Concat(ds);
    } else {
      assert asked + [] == asked;
    }
  }

  /** The send button is enabled exactly when clicking it, which sends the
      input field, passes the guard. */
  predicate SendButtonEnabled(c: Chat) {
    !(Trim(c.input) == "" || c.isLoading)
  }

  lemma SendButtonMatchesGuard(c: Chat)
    ensures SendButtonEnabled(c) <==> Accepts(c.input, c.isLoading)
  {
  }

  /** `newConversation`: the messages and the error are cleared; the input
      field and the loading flag are kept. */
  function NewConversationSpec(c: Chat): (r: Chat)
    ensures r.messages == [] && r.error == None
    ensures r.input == c.input && r.isLoading == c.isLoading
  {
    c.(messages := [], error := None)
  }

  /** The page's state hooks and its handlers. */
  class ChatPage {
    var messages: seq<Msg>
    var input: string
    var isLoading: bool
    var error: Option<string>

    function State(): Chat
      reads this
    {
      Chat(messages, input, isLoading, error)
    }

    constructor ()
      ensures State() == Chat([], "", false, None)
    {
      messages, input, isLoading, error := [], "", false, None;
    }

    /** The text area's `onChange`. The text area is disabled while a reply
        is awaited, so no change arrives then. */
    method SetInput(value: string)
      requires !isLoading
      modifies this
      ensures State() == old(State()).(input := value)
    {
      input := value;
    }

    /** `send(text)`, run until `streamChat` has returned. */
    method Send(text: string, resp: Response, parse: Parser)
      modifies this
      ensures State() == SendSpec(old(State()), text, resp, parse)
    {
      if Trim(text) == "" || isLoading {
        RefusedSendChangesNothing(State(), text, resp, parse);
        return;
      }
      ghost var before := State();
      error := None;
      messages := messages + [Msg(User, Trim(text))];
      input := "";
      isLoading := true;
      assert State() == Chat(Asked(before, text), "", true, None);
      var events := StreamChat(resp, parse);
      RunCallbacks(events);
      AcceptedSend(before, text, resp, parse);
    }

    /** The callbacks `onDelta`, `onDone` and `onError` of one `streamChat`
        call, run in the order reported; `assistantSoFar` starts empty. */
    method RunCallbacks(events: seq<Event>)
      modifies this
      ensures State() == Dispatch(old(State()), "", events)
    {
      var assistantSoFar := "";
      var i := 0;
      while i < |events|
        invariant 0 <= i <= |events|
        invariant Dispatch(old(State()), "", events) == Dispatch(State(), assistantSoFar, events[i..])
      {
        assert events[i..][1..] == events[i + 1..];
        match events[i] {
          case Delta(chunk) =>
            assistantSoFar := assistantSoFar + chunk;
            messages := UpsertAssistant(messages, assistantSoFar);
          case Done =>
            isLoading := false;
          case Error(e) =>
            error := Some(e);
            isLoading := false;
        }
        i := i + 1;
      }
    }

    /** `newConversation`. */
    method NewConversation()
      modifies this
      ensures State() == NewConversationSpec(old(State()))
    {
      messages := [];
      error := None;
    }
  }
}

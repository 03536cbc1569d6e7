/**
 * The Angular client's chat service: the list of chat messages it holds, the
 * connection and streaming flags, and the reader that turns the server-push text of
 * a chat response into updates of the assistant's message.
 *
 * The network is a parameter: a `FetchResult` is what `fetch` produced (a rejection,
 * or a response with its status and, when present, the text of its body as the reads
 * delivered it), and a `Parser` is `JSON.parse` followed by the read of an object.
 */
module ChatService {
  import opened Base
  import opened Events

  const Apology := "Sorry, there was an error processing your request. Please make sure Ollama is running and try again."
  const CancelNotice := "\n\n[Response was cancelled]"
  const DataPrefix := "data: "

  /** What a template literal or a `+=` writes for a missing field. */
  const Undefined := "undefined"

  /**
   * A `Partial<ChatMessage>` over the fields the service updates: a field that is
   * absent from the update keeps its value.
   */
  datatype MessageUpdate = MessageUpdate(content: Option<string>, isStreaming: Option<bool>, feedback: Option<FeedbackType>)

  const NoUpdate := MessageUpdate(None, None, None)

  /** A field after a spread: the update's value when it sets one, else the old value. */
  function Override<T>(was: Option<T>, now: Option<T>): Option<T> {
    if now.Some? then now else was
  }

  /** `{ ...msg, ...updates }`: the identity, role and template of a message never change. */
  function Apply(m: ChatMessage, u: MessageUpdate): (r: ChatMessage)
    ensures r.id == m.id && r.role == m.role && r.template == m.template
  {
    m.(content := u.content.GetOr(m.content),
       isStreaming := Override(m.isStreaming, u.isStreaming),
       feedback := Override(m.feedback, u.feedback))
  }

  /** One update after another, as a single update in which the later one wins field by field. */
  function Merge(first: MessageUpdate, second: MessageUpdate): MessageUpdate {
    MessageUpdate(
      Override(first.content, second.content),
      Override(first.isStreaming, second.isStreaming),
      Override(first.feedback, second.feedback))
  }

  /** Applying two updates in turn is applying their merge; the empty update changes nothing. */
  lemma ApplyMerge(m: ChatMessage, first: MessageUpdate, second: MessageUpdate)
    ensures Apply(Apply(m, first), second) == Apply(m, Merge(first, second))
    ensures Apply(m, NoUpdate) == m
  {
  }

  /**
   * `updateMessage`'s `map`: every message carrying the id is updated, every other
   * message is kept as it is, and the list keeps its length and order.
   */
  function UpdateAll(msgs: seq<ChatMessage>, id: string, u: MessageUpdate): (r: seq<ChatMessage>)
    ensures |r| == |msgs|
    ensures forall i :: 0 <= i < |msgs| && msgs[i].id != id ==> r[i] == msgs[i]
    ensures forall i :: 0 <= i < |msgs| && msgs[i].id == id ==> r[i] == Apply(msgs[i], u)
  {
    seq(|msgs|, i requires 0 <= i < |msgs| => if msgs[i].id == id then Apply(msgs[i], u) else msgs[i])
  }

  /** Two updates of the same message compose into their merge; the empty update is the identity. */
  lemma UpdateAllMerge(msgs: seq<ChatMessage>, id: string, first: MessageUpdate, second: MessageUpdate)
    ensures UpdateAll(UpdateAll(msgs, id, first), id, second) == UpdateAll(msgs, id, Merge(first, second))
    ensures UpdateAll(msgs, id, NoUpdate) == msgs
  {
    forall i | 0 <= i < |msgs| {
      ApplyMerge(msgs[i], first, second);
    }
  }

  /** An update of an id no earlier message carries touches only the messages added after them. */
  lemma UpdateAllAppend(msgs: seq<ChatMessage>, added: seq<ChatMessage>, id: string, u: MessageUpdate)
    requires forall i :: 0 <= i < |msgs| ==> msgs[i].id != id
    ensures UpdateAll(msgs + added, id, u) == msgs + UpdateAll(added, id, u)
  {
  }

  /** `JSON.parse` of a payload: the object it denotes, or nothing when it throws or yields no object. */
  type Parser = string -> Option<JsonObject>

  /**
   * The `switch (sseEvent.type)` of a parsed object: an event when its `type` names
   * one of the five event types, with the `data` field or, when that is missing,
   * the text `undefined`.
   */
  function ReadEvent(o: JsonObject): (e: Option<SseEvent>)
    ensures e.Some? <==> "type" in o && TypeNamed(o["type"]).Some?
    ensures e.Some? ==> TypeName(e.value.kind) == o["type"]
    ensures e.Some? && "data" in o ==> e.value.data == o["data"]
  {
    if "type" in o && TypeNamed(o["type"]).Some? then
      Some(SseEvent(TypeNamed(o["type"]).value, if "data" in o then o["data"] else Undefined))
    else None
  }

  /**
   * One line of the response text: an event only when the line opens with `data: `,
   * the rest of it is not blank, and it parses to an object whose type is known.
   */
  function DecodeLine(line: string, parse: Parser): (e: Option<SseEvent>)
    ensures e.Some? ==> StartsWith(line, DataPrefix) && !AllJsSpace(line[|DataPrefix|..])
    ensures e.Some? ==> parse(line[|DataPrefix|..]).Some? && ReadEvent(parse(line[|DataPrefix|..]).value) == e
    ensures StartsWith(line, DataPrefix) && !AllJsSpace(line[|DataPrefix|..]) && parse(line[|DataPrefix|..]).Some? ==>
      e == ReadEvent(parse(line[|DataPrefix|..]).value)
  {
    if StartsWith(line, DataPrefix) && Trim(line[|DataPrefix|..]) != "" then
      match parse(line[|DataPrefix|..])
      case None => None
      case Some(o) => ReadEvent(o)
    else None
  }

  /** The events of a run of lines, in order, with the lines that carry none dropped. */
  function DecodeLines(lines: seq<string>, parse: Parser): (events: seq<SseEvent>)
    ensures |events| <= |lines|
  {
    if lines == [] then []
    else
      var e := DecodeLine(lines[|lines| - 1], parse);
      DecodeLines(lines[..|lines| - 1], parse) + (if e.Some? then [e.value] else [])
  }

  /** Decoding distributes over the lines. */
  lemma {:induction false} DecodeLinesAppend(a: seq<string>, b: seq<string>, parse: Parser)
    ensures DecodeLines(a + b, parse) == DecodeLines(a, parse) + DecodeLines(b, parse)
    decreases |b|
  {
    if b == [] {
      assert a + b == a;
    } else {
      var n := |b| - 1;
      assert (a + b)[..|a + b| - 1] == a + b[..n];
      DecodeLinesAppend(a, b[..n], parse);
    }
  }

  /** The state of the reader: the text accumulated so far, the updates made, and whether it returned. */
  datatype Progress = Progress(accumulated: string, update: MessageUpdate, finished: bool)

  /** The update each `case` makes to the assistant's message. */
  function Effect(accumulated: string, e: SseEvent): MessageUpdate {
    match e.kind
    case Start => NoUpdate
    case Chunk => MessageUpdate(Some(accumulated + e.data), Some(true), None)
    case Complete => MessageUpdate(Some(accumulated), Some(false), None)
    case Error => MessageUpdate(Some("Error: " + e.data), Some(false), None)
    case Cancelled => MessageUpdate(Some(accumulated + CancelNotice), Some(false), None)
  }

  /** The text accumulated after an event: only a chunk adds to it. */
  function Accumulate(accumulated: string, e: SseEvent): string {
    if e.kind == Chunk then accumulated + e.data else accumulated
  }

  /**
   * The cases that `return`: complete and cancelled. The error case throws inside the
   * per-line `try`, whose `catch` swallows it, so reading goes on after an error.
   */
  predicate Returns(e: SseEvent) {
    e.kind == Complete || e.kind == Cancelled
  }

  function Consume(p: Progress, e: SseEvent): Progress {
    Progress(Accumulate(p.accumulated, e), Merge(p.update, Effect(p.accumulated, e)), Returns(e))
  }

  /** The reader over a sequence of events: each one is handled in turn until one returns. */
  function Run(events: seq<SseEvent>): (p: Progress)
    ensures p.finished ==> exists i :: 0 <= i < |events| && Returns(events[i])
    ensures (exists i :: 0 <= i < |events| && Returns(events[i])) ==> p.finished
  {
    if events == [] then Progress("", NoUpdate, false)
    else
      var p := Run(events[..|events| - 1]);
      if p.finished then p else Consume(p, events[|events| - 1])
  }

  /** Nothing after a returning event has any effect. */
  lemma {:induction false} RunFinished(events: seq<SseEvent>, more: seq<SseEvent>)
    requires Run(events).finished
    ensures Run(events + more) == Run(events)
    decreases |more|
  {
    if more == [] {
      assert events + more == events;
    } else {
      var n := |more| - 1;
      assert (events + more)[..|events + more| - 1] == events + more[..n];
      RunFinished(events, more[..n]);
    }
  }

  /**
   * Until the reader returns, the accumulated text is the concatenation of the
   * chunk payloads read so far.
   */
  lemma {:induction false} RunAccumulates(events: seq<SseEvent>)
    requires !Run(events).finished
    ensures Run(events).accumulated == Concat(ChunkTexts(events))
    decreases |events|
  {
    if events != [] {
      var init, last := events[..|events| - 1], events[|events| - 1];
      assert !Run(init).finished;
      RunAccumulates(init);
      if last.kind == Chunk {
        var texts := ChunkTexts(init) + [last.data];
        assert texts[..|texts| - 1] == ChunkTexts(init);
      } else {
        assert ChunkTexts(init) + [] == ChunkTexts(init);
      }
    }
  }

  /**
   * An error event is shown as `Error: <data>` and ends the streaming of the
   * message, but the reader goes on.
   */
  lemma ErrorKeepsReading(events: seq<SseEvent>, data: string)
    requires !Run(events).finished
    ensures var p := Run(events + [SseEvent(Error, data)]);
      !p.finished && p.update.content == Some("Error: " + data) && p.update.isStreaming == Some(false)
  {
    assert (events + [SseEvent(Error, data)])[..|events|] == events;
  }

  /** The lines of a text that are ended by a line feed. */
  function CompleteLines(text: string): (lines: seq<string>)
    ensures |lines| == |Split(text, '\n')| - 1
  {
    var parts := Split(text, '\n');
    parts[..|parts| - 1]
  }

  /** The unfinished last line of a text, which a later delivery continues. */
  function Remainder(text: string): (rest: string)
    ensures '\n' !in rest
  {
    var parts := Split(text, '\n');
    SplitPieces(text, '\n');
    parts[|parts| - 1]
  }

  /** The text is its complete lines, each with its line feed, followed by the remainder. */
  lemma LinesRejoin(text: string)
    ensures Join(CompleteLines(text) + [Remainder(text)], '\n') == text
  {
    var parts := Split(text, '\n');
    assert CompleteLines(text) + [Remainder(text)] == parts;
    JoinSplit(text, '\n');
  }

  /**
   * Reading more text after some text: the complete lines of the whole are those of
   * the first part, then those of the first part's remainder continued by the rest.
   */
  lemma LinesAppend(text: string, more: string)
    ensures CompleteLines(text + more) == CompleteLines(text) + CompleteLines(Remainder(text) + more)
    ensures Remainder(text + more) == Remainder(Remainder(text) + more)
  {
    var px, pm := Split(text, '\n'), Split(more, '\n');
    var r := Remainder(text);
    SplitAppend(text, more, '\n');
    SplitAppend(r, more, '\n');
    NoSeparator(r, '\n');
    GlueSingle(r, pm);
    GlueLast(px, pm);
  }

  lemma GlueSingle(r: string, pm: seq<string>)
    requires |pm| >= 1
    ensures Glue([r], pm) == [r + pm[0]] + pm[1..]
  {
    assert [r][..0] == [];
  }

  /** The pieces of a glued list, split at the end of the first list's full pieces. */
  lemma GlueLast(px: seq<string>, pm: seq<string>)
    requires |px| >= 1 && |pm| >= 1
    ensures var g, h := Glue(px, pm), [px[|px| - 1] + pm[0]] + pm[1..];
      g[..|g| - 1] == px[..|px| - 1] + h[..|h| - 1] && g[|g| - 1] == h[|h| - 1]
  {
  }

  /** Whether the reads of a body ended normally or the connection broke after the last of them. */
  datatype StreamEnd = Finished | Broken

  /** The texts the reads of a response body returned, in order, and how the reading ended. */
  datatype Body = Body(deliveries: seq<string>, end: StreamEnd)

  /** What `fetch` produced: a rejection, or a response with its status and, perhaps, a body. */
  datatype FetchResult = NetworkFailure | Response(ok: bool, status: int, body: Option<Body>)

  /**
   * The lines of the reader as written: each delivery is split on its own, and every
   * piece, the unfinished last one included, is handled as a line.
   */
  function DeliveryLines(deliveries: seq<string>): (lines: seq<string>)
    ensures |lines| >= |deliveries|
  {
    if deliveries == [] then []
    else DeliveryLines(deliveries[..|deliveries| - 1]) + Split(deliveries[|deliveries| - 1], '\n')
  }

  /** The reader as written over a body: the events of every piece of every delivery. */
  function Read(body: Body, parse: Parser): Progress {
    Run(DecodeLines(DeliveryLines(body.deliveries), parse))
  }

  /**
   * The reader with a buffer carried across deliveries: the events of the complete
   * lines of everything received, whatever the boundaries between the deliveries.
   */
  function Received(body: Body, parse: Parser): Progress {
    Run(DecodeLines(CompleteLines(Concat(body.deliveries)), parse))
  }

  /** Every delivery ends at a line end, as when each read returns whole frames. */
  predicate LineAligned(deliveries: seq<string>) {
    forall i :: 0 <= i < |deliveries| ==> deliveries[i] != [] && deliveries[i][|deliveries[i]| - 1] == '\n'
  }

  /**
   * `streamWithFetch` throws when `fetch` rejects, when the status is not a success,
   * when there is no body, and when the connection breaks before the reader returned.
   */
  predicate StreamFails(f: FetchResult, parse: Parser) {
    match f
    case NetworkFailure => true
    case Response(ok, _, body) => !ok || body.None? || (body.value.end == Broken && !Read(body.value, parse).finished)
  }

  /** The updates `streamWithFetch` makes to the assistant's message. */
  function StreamUpdate(f: FetchResult, parse: Parser): MessageUpdate {
    if f.Response? && f.ok && f.body.Some? then Read(f.body.value, parse).update else NoUpdate
  }

  /** The update of `sendMessage`'s `catch`. */
  const ApologyUpdate := MessageUpdate(Some(Apology), Some(false), None)

  /** All updates `sendMessage` makes to the assistant's message. */
  function SendUpdate(f: FetchResult, parse: Parser): MessageUpdate {
    if StreamFails(f, parse) then Merge(StreamUpdate(f, parse), ApologyUpdate) else StreamUpdate(f, parse)
  }

  /** The message `sendMessage` adds for the user's input. */
  function UserMessage(id: string, request: ChatRequest): ChatMessage {
    ChatMessage(id, request.userInput, User, request.template, None, None)
  }

  /** The empty, streaming message `sendMessage` adds for the answer. */
  function Placeholder(id: string): ChatMessage {
    ChatMessage(id, "", Assistant, None, Some(true), None)
  }

  /**
   * The state the reading loops keep: the reader has not returned, the accumulated
   * text is the reader's, and the messages are the starting ones with the reader's
   * updates applied.
   */
  predicate Tracks(p: Progress, accumulated: string, msgs: seq<ChatMessage>, start: seq<ChatMessage>, id: string) {
    !p.finished && p.accumulated == accumulated && msgs == UpdateAll(start, id, p.update)
  }

  class ChatService {
    var messages: seq<ChatMessage>
    var isConnected: bool
    var isStreaming: bool

    /** A new service holds no messages, is not connected and is not streaming. */
    constructor()
      ensures messages == [] && !isConnected && !isStreaming
    {
      messages := [];
      isConnected := false;
      isStreaming := false;
    }

    /**
     * `checkHealth` once the request settles: connected exactly when the health
     * endpoint answered and reported healthy.
     */
    method CheckHealth(answer: Option<bool>)
      modifies this
      ensures isConnected <==> answer.Some? && answer.value
      ensures messages == old(messages) && isStreaming == old(isStreaming)
    {
      match answer {
        case Some(healthy) => isConnected := healthy;
        case None => isConnected := false;
      }
    }

    method AddMessage(m: ChatMessage)
      modifies this
      ensures messages == old(messages) + [m]
      ensures isConnected == old(isConnected) && isStreaming == old(isStreaming)
    {
      messages := messages + [m];
    }

    method UpdateMessage(id: string, u: MessageUpdate)
      modifies this
      ensures messages == UpdateAll(old(messages), id, u)
      ensures isConnected == old(isConnected) && isStreaming == old(isStreaming)
    {
      messages := UpdateAll(messages, id, u);
    }

    /** `submitFeedback`: sets the feedback of the messages with the id, and nothing else. */
    method SubmitFeedback(id: string, feedback: FeedbackType)
      modifies this
      ensures messages == UpdateAll(old(messages), id, MessageUpdate(None, None, Some(feedback)))
      ensures isConnected == old(isConnected) && isStreaming == old(isStreaming)
    {
      UpdateMessage(id, MessageUpdate(None, None, Some(feedback)));
    }

    method ClearMessages()
      modifies this
      ensures messages == []
      ensures isConnected == old(isConnected) && isStreaming == old(isStreaming)
    {
      messages := [];
    }

    /**
     * The body of the per-line loop: decode the line and run the `case` of its event,
     * reporting the new accumulated text and whether the case returned.
     */
    method DispatchLine(id: string, line: string, parse: Parser, accumulated: string) returns (next: string, stop: bool)
      modifies this
      ensures var e := DecodeLine(line, parse);
        if e.Some? then
          next == Accumulate(accumulated, e.value) && stop == Returns(e.value)
          && messages == UpdateAll(old(messages), id, Effect(accumulated, e.value))
        else next == accumulated && !stop && messages == old(messages)
      ensures isConnected == old(isConnected) && isStreaming == old(isStreaming)
    {
      next, stop := accumulated, false;
      if StartsWith(line, DataPrefix) {
        var payload := line[|DataPrefix|..];
        if Trim(payload) == "" {
          return;
        }
        var parsed := parse(payload);
        if parsed.None? {
          return;
        }
        var event := ReadEvent(parsed.value);
        if event.None? {
          return;
        }
        var e := event.value;
        match e.kind {
          case Start =>
            UpdateAllMerge(messages, id, NoUpdate, NoUpdate);
          case Chunk =>
            next := accumulated + e.data;
            UpdateMessage(id, MessageUpdate(Some(next), Some(true), None));
          case Complete =>
            UpdateMessage(id, MessageUpdate(Some(accumulated), Some(false), None));
            stop := true;
          case Error =>
            UpdateMessage(id, MessageUpdate(Some("Error: " + e.data), Some(false), None));
          case Cancelled =>
            UpdateMessage(id, MessageUpdate(Some(accumulated + CancelNotice), Some(false), None));
            stop := true;
        }
      }
    }

    /**
     * `streamWithFetch`: the updates of the assistant's message are those of the
     * reader over every piece of every delivery, and the call fails exactly in the
     * cases `StreamFails` names.
     */
    method StreamWithFetch(id: string, f: FetchResult, parse: Parser) returns (failed: bool)
      modifies this
      ensures failed == StreamFails(f, parse)
      ensures messages == UpdateAll(old(messages), id, StreamUpdate(f, parse))
      ensures isConnected == old(isConnected) && isStreaming == old(isStreaming)
    {
      if f.NetworkFailure? || !f.ok || f.body.None? {
        UpdateAllMerge(messages, id, NoUpdate, NoUpdate);
        return true;
      }
      failed := ReadBody(id, f.body.value, parse);
    }

    /**
     * The `while (true)` loop over the reads of a body: each delivery is split on
     * its own and every piece is handled as a line. The updates are those of the
     * reader over those pieces, and the loop throws only when the connection breaks
     * before the reader returned.
     */
    method ReadBody(id: string, body: Body, parse: Parser) returns (failed: bool)
      modifies this
      ensures failed == (body.end == Broken && !Read(body, parse).finished)
      ensures messages == UpdateAll(old(messages), id, Read(body, parse).update)
      ensures isConnected == old(isConnected) && isStreaming == old(isStreaming)
    {
      var deliveries := body.deliveries;
      ghost var start := messages;
      UpdateAllMerge(start, id, NoUpdate, NoUpdate);
      var accumulated := "";
      var k := 0;
      while k < |deliveries|
        invariant 0 <= k <= |deliveries|
        invariant Tracks(Run(DecodeLines(DeliveryLines(deliveries[..k]), parse)), accumulated, messages, start, id)
        invariant isConnected == old(isConnected) && isStreaming == old(isStreaming)
      {
        var lines := Split(deliveries[k], '\n');
        var stop;
        accumulated, stop := HandleLines(id, lines, parse, accumulated, DeliveryLines(deliveries[..k]), start);
        DeliveryStep(deliveries, k);
        if stop {
          ReadReturnIsFinal(body, k + 1, parse);
          return false;
        }
        k := k + 1;
      }
      assert deliveries[..k] == deliveries;
      failed := body.end == Broken;
    }

    /**
     * The loop over the reads as it should read: a buffer carries the unfinished
     * last line of each delivery over to the next. The updates are those of the
     * reader over the complete lines of everything received, and the loop throws
     * only when the connection breaks before the reader returned.
     */
    method ReadBodyBuffered(id: string, body: Body, parse: Parser) returns (failed: bool)
      modifies this
      ensures failed == (body.end == Broken && !Received(body, parse).finished)
      ensures messages == UpdateAll(old(messages), id, Received(body, parse).update)
      ensures isConnected == old(isConnected) && isStreaming == old(isStreaming)
    {
      var deliveries := body.deliveries;
      ghost var start := messages;
      UpdateAllMerge(start, id, NoUpdate, NoUpdate);
      var accumulated := "";
      var buffer := "";
      var k := 0;
      while k < |deliveries|
        invariant 0 <= k <= |deliveries|
        invariant buffer == Remainder(Concat(deliveries[..k]))
        invariant Tracks(Run(DecodeLines(CompleteLines(Concat(deliveries[..k])), parse)), accumulated, messages, start, id)
        invariant isConnected == old(isConnected) && isStreaming == old(isStreaming)
      {
        var lines := Split(buffer + deliveries[k], '\n');
        var stop;
        accumulated, stop := HandleLines(id, lines[..|lines| - 1], parse, accumulated,
          CompleteLines(Concat(deliveries[..k])), start);
        DeliveryRead(deliveries, k);
        ghost var read := Run(DecodeLines(CompleteLines(Concat(deliveries[..k + 1])), parse));
        assert read == Run(DecodeLines(CompleteLines(Concat(deliveries[..k])) + lines[..|lines| - 1], parse));
        if stop {
          ReturnIsFinal(body, k + 1, parse);
          return false;
        }
        buffer := lines[|lines| - 1];
        k := k + 1;
      }
      assert deliveries[..k] == deliveries;
      failed := body.end == Broken;
    }

    /**
     * The `for (const line of lines)` loop over the complete lines of one delivery:
     * either the reader is still going after all of them, or it returned on one of
     * them, and then the lines after it have no effect.
     */
    method HandleLines(id: string, lines: seq<string>, parse: Parser, accumulated: string,
                       ghost handled: seq<string>, ghost start: seq<ChatMessage>) returns (next: string, stop: bool)
      modifies this
      requires Tracks(Run(DecodeLines(handled, parse)), accumulated, messages, start, id)
      ensures var p := Run(DecodeLines(handled + lines, parse));
        if stop then p.finished && messages == UpdateAll(start, id, p.update) else Tracks(p, next, messages, start, id)
      ensures isConnected == old(isConnected) && isStreaming == old(isStreaming)
    {
      next, stop := accumulated, false;
      var j := 0;
      assert handled + lines[..0] == handled;
      while j < |lines|
        invariant 0 <= j <= |lines|
        invariant Tracks(Run(DecodeLines(handled + lines[..j], parse)), next, messages, start, id)
        invariant isConnected == old(isConnected) && isStreaming == old(isStreaming)
      {
        ghost var held, was := messages, next;
        next, stop := DispatchLine(id, lines[j], parse, next);
        LineStep(handled + lines[..j], lines[j], parse, was, next, stop, held, messages, start, id);
        Extend(handled, lines, j);
        if stop {
          ReturnedStays(handled + lines[..j + 1], lines[j + 1..], parse);
          return;
        }
        j := j + 1;
      }
      assert lines[..j] == lines;
    }

    /**
     * `sendMessage`: adds the user's message and an empty streaming placeholder,
     * streams the answer into the placeholder, replaces it with the apology when
     * streaming failed, and always ends with the streaming flag down.
     */
    method SendMessage(request: ChatRequest, userId: string, assistantId: string, f: FetchResult, parse: Parser)
      modifies this
      ensures messages == UpdateAll(old(messages) + [UserMessage(userId, request), Placeholder(assistantId)],
        assistantId, SendUpdate(f, parse))
      ensures !isStreaming && isConnected == old(isConnected)
    {
      AddMessage(UserMessage(userId, request));
      AddMessage(Placeholder(assistantId));
      ghost var added := messages;
      isStreaming := true;
      var failed := StreamWithFetch(assistantId, f, parse);
      if failed {
        UpdateMessage(assistantId, ApologyUpdate);
        UpdateAllMerge(added, assistantId, StreamUpdate(f, parse), ApologyUpdate);
      }
      isStreaming := false;
    }
  }

  /** One pass of the per-line loop keeps `Tracks`, or ends with the reader returned. */
  lemma LineStep(handled: seq<string>, line: string, parse: Parser, accumulated: string, next: string, stop: bool,
                 held: seq<ChatMessage>, msgs: seq<ChatMessage>, start: seq<ChatMessage>, id: string)
    requires Tracks(Run(DecodeLines(handled, parse)), accumulated, held, start, id)
    requires var e := DecodeLine(line, parse);
      if e.Some? then
        next == Accumulate(accumulated, e.value) && stop == Returns(e.value)
        && msgs == UpdateAll(held, id, Effect(accumulated, e.value))
      else next == accumulated && !stop && msgs == held
    ensures var p := Run(DecodeLines(handled + [line], parse));
      if stop then p.finished && msgs == UpdateAll(start, id, p.update) else Tracks(p, next, msgs, start, id)
  {
    var seen := DecodeLines(handled, parse);
    var e := DecodeLine(line, parse);
    assert (handled + [line])[..|handled|] == handled;
    if e.Some? {
      var after := seen + [e.value];
      assert after[..|after| - 1] == seen;
      UpdateAllMerge(start, id, Run(seen).update, Effect(accumulated, e.value));
    } else {
      assert seen + [] == seen;
    }
  }

  /** After a delivery's complete lines are handled, the buffer and the lines seen are those of one more delivery. */
  lemma DeliveryRead(deliveries: seq<string>, k: nat)
    requires k < |deliveries|
    ensures var text := Remainder(Concat(deliveries[..k])) + deliveries[k];
      var lines := Split(text, '\n');
      CompleteLines(Concat(deliveries[..k])) + lines[..|lines| - 1] == CompleteLines(Concat(deliveries[..k + 1]))
      && lines[|lines| - 1] == Remainder(Concat(deliveries[..k + 1]))
  {
    assert deliveries[..k + 1][..k] == deliveries[..k];
    LinesAppend(Concat(deliveries[..k]), deliveries[k]);
  }

  /** How the handled lines grow by one, and how the rest completes them. */
  lemma Extend(handled: seq<string>, lines: seq<string>, j: nat)
    requires j < |lines|
    ensures handled + lines[..j] + [lines[j]] == handled + lines[..j + 1]
    ensures handled + lines[..j + 1] + lines[j + 1..] == handled + lines
  {
    assert lines[..j + 1] + lines[j + 1..] == lines;
  }

  /** Once the reader has returned, the lines after it change nothing. */
  lemma ReturnedStays(handled: seq<string>, more: seq<string>, parse: Parser)
    requires Run(DecodeLines(handled, parse)).finished
    ensures Run(DecodeLines(handled + more, parse)) == Run(DecodeLines(handled, parse))
  {
    DecodeLinesAppend(handled, more, parse);
    RunFinished(DecodeLines(handled, parse), DecodeLines(more, parse));
  }

  /**
   * When the reader has returned within the first `k` deliveries, it has returned
   * over the whole body, with the same updates.
   */
  lemma ReturnIsFinal(body: Body, k: nat, parse: Parser)
    requires k <= |body.deliveries|
    requires Run(DecodeLines(CompleteLines(Concat(body.deliveries[..k])), parse)).finished
    ensures Received(body, parse) == Run(DecodeLines(CompleteLines(Concat(body.deliveries[..k])), parse))
  {
    var deliveries := body.deliveries;
    ConcatSplit(deliveries, k);
    LinesAppend(Concat(deliveries[..k]), Concat(deliveries[k..]));
    ReturnedStays(CompleteLines(Concat(deliveries[..k])),
      CompleteLines(Remainder(Concat(deliveries[..k])) + Concat(deliveries[k..])), parse);
  }

  /**
   * After `sendMessage`, when the two ids are fresh, the earlier messages are as they
   * were, the user's message follows unchanged, and the placeholder carries every
   * update of the answer.
   */
  lemma SentMessages(msgs: seq<ChatMessage>, request: ChatRequest, userId: string, assistantId: string, u: MessageUpdate)
    requires userId != assistantId
    requires forall i :: 0 <= i < |msgs| ==> msgs[i].id != assistantId
    ensures UpdateAll(msgs + [UserMessage(userId, request), Placeholder(assistantId)], assistantId, u)
      == msgs + [UserMessage(userId, request), Apply(Placeholder(assistantId), u)]
  {
    UpdateAllAppend(msgs, [UserMessage(userId, request), Placeholder(assistantId)], assistantId, u);
  }

  /**
   * When streaming fails, the answer reads as the apology and is no longer streaming,
   * whatever the reader had shown before.
   */
  lemma FailureApologises(f: FetchResult, parse: Parser, id: string)
    requires StreamFails(f, parse)
    ensures var m := Apply(Placeholder(id), SendUpdate(f, parse));
      m.content == Apology && m.isStreaming == Some(false)
  {
  }

  /** One more delivery adds its pieces to the lines the reader as written has handled. */
  lemma DeliveryStep(deliveries: seq<string>, k: nat)
    requires k < |deliveries|
    ensures DeliveryLines(deliveries[..k + 1]) == DeliveryLines(deliveries[..k]) + Split(deliveries[k], '\n')
  {
    assert deliveries[..k + 1][..k] == deliveries[..k];
  }

  /** The reader as written handles the deliveries one after another. */
  lemma {:induction false} DeliveryLinesAppend(a: seq<string>, b: seq<string>)
    ensures DeliveryLines(a + b) == DeliveryLines(a) + DeliveryLines(b)
    decreases |b|
  {
    if b == [] {
      assert a + b == a;
    } else {
      var n := |b| - 1;
      assert (a + b)[..|a + b| - 1] == a + b[..n];
      DeliveryLinesAppend(a, b[..n]);
    }
  }

  /**
   * When the reader as written has returned within the first `k` deliveries, it has
   * returned over the whole body, with the same updates.
   */
  lemma ReadReturnIsFinal(body: Body, k: nat, parse: Parser)
    requires k <= |body.deliveries|
    requires Run(DecodeLines(DeliveryLines(body.deliveries[..k]), parse)).finished
    ensures Read(body, parse) == Run(DecodeLines(DeliveryLines(body.deliveries[..k]), parse))
  {
    var deliveries := body.deliveries;
    assert deliveries == deliveries[..k] + deliveries[k..];
    DeliveryLinesAppend(deliveries[..k], deliveries[k..]);
    ReturnedStays(DeliveryLines(deliveries[..k]), DeliveryLines(deliveries[k..]), parse);
  }

  /** For deliveries that end at line ends, the reader as written and the buffered reader agree. */
  lemma ReadAligned(body: Body, parse: Parser)
    requires LineAligned(body.deliveries)
    ensures Read(body, parse) == Received(body, parse)
  {
    AlignedDeliveries(body.deliveries, parse);
  }

  /**
   * With the buffer, the text of a body is read the same whatever the deliveries it
   * arrived in: cutting any delivery in two changes nothing.
   */
  lemma DeliveryBoundariesIrrelevant(deliveries: seq<string>, k: nat, cut: nat, end: StreamEnd, parse: Parser)
    requires k < |deliveries| && cut <= |deliveries[k]|
    ensures var split := deliveries[..k] + [deliveries[k][..cut], deliveries[k][cut..]] + deliveries[k + 1..];
      Received(Body(split, end), parse) == Received(Body(deliveries, end), parse)
  {
    ConcatCut(deliveries, k, cut);
  }

  /**
   * When every delivery ends at a line end, the reader as written and the reader
   * with a carried-over buffer see the same events: the extra empty piece after each
   * delivery carries none.
   */
  lemma {:induction false} AlignedDeliveries(deliveries: seq<string>, parse: Parser)
    requires LineAligned(deliveries)
    ensures Remainder(Concat(deliveries)) == ""
    ensures DecodeLines(DeliveryLines(deliveries), parse) == DecodeLines(CompleteLines(Concat(deliveries)), parse)
    decreases |deliveries|
  {
    if deliveries == [] {
      NoSeparator("", '\n');
    } else {
      var n := |deliveries| - 1;
      assert LineAligned(deliveries[..n]) by {
        forall i | 0 <= i < n ensures deliveries[..n][i] == deliveries[i] { }
      }
      AlignedDeliveries(deliveries[..n], parse);
      AlignedStep(Concat(deliveries[..n]), deliveries[n], DeliveryLines(deliveries[..n]), parse);
    }
  }

  /** One more delivery ended by a line feed keeps the two readers in step. */
  lemma AlignedStep(text: string, d: string, before: seq<string>, parse: Parser)
    requires Remainder(text) == "" && DecodeLines(before, parse) == DecodeLines(CompleteLines(text), parse)
    requires d != [] && d[|d| - 1] == '\n'
    ensures Remainder(text + d) == ""
    ensures DecodeLines(before + Split(d, '\n'), parse) == DecodeLines(CompleteLines(text + d), parse)
  {
    assert d == d[..|d| - 1] + "\n";
    LineEnded(d[..|d| - 1]);
    LinesAppend(text, d);
    assert "" + d == d;
    EndedPieces(d, parse);
    DecodeLinesAppend(before, Split(d, '\n'), parse);
    DecodeLinesAppend(CompleteLines(text), CompleteLines(d), parse);
  }

  /** The pieces of a text ended by a line feed carry the events of its complete lines. */
  lemma EndedPieces(d: string, parse: Parser)
    requires Split(d, '\n') == CompleteLines(d) + [""]
    ensures DecodeLines(Split(d, '\n'), parse) == DecodeLines(CompleteLines(d), parse)
  {
    DecodeLinesAppend(CompleteLines(d), [""], parse);
    assert [""][..0] == [];
    assert !StartsWith("", DataPrefix);
  }

  /** A text ended by a line feed is all complete lines: its last piece is empty. */
  lemma LineEnded(x: string)
    ensures Split(x + "\n", '\n') == CompleteLines(x + "\n") + [""]
    ensures Remainder(x + "\n") == ""
  {
    SplitAround(x, [], '\n');
    assert x + "\n" == x + ['\n'] + [];
  }

  /**
   * A frame whose bytes arrive in two deliveries, cut inside its `data: ` prefix, is
   * lost by the reader as written, while reading with a carried-over buffer decodes it.
   */
  lemma SplitFrameLostAsWritten(json: string, parse: Parser, e: SseEvent, end: StreamEnd)
    requires '\n' !in json && !AllJsSpace(json)
    requires parse(json).Some? && ReadEvent(parse(json).value) == Some(e)
    ensures var deliveries := ["da", "ta: " + json + "\n\n"];
      && DecodeLines(DeliveryLines(deliveries), parse) == []
      && DecodeLines(CompleteLines(Concat(deliveries)), parse) == [e]
      && Read(Body(deliveries, end), parse).update == NoUpdate
      && Received(Body(deliveries, end), parse) == Run([e])
  {
    var tail := "ta: " + json;
    AsWrittenPieces(tail);
    NoDataLines(tail, parse);
    BufferedFrame(json, parse, e);
  }

  /** With the buffer, the two deliveries read as the frame's line and the blank line after it. */
  lemma BufferedFrame(json: string, parse: Parser, e: SseEvent)
    requires '\n' !in json && !AllJsSpace(json)
    requires parse(json).Some? && ReadEvent(parse(json).value) == Some(e)
    ensures DecodeLines(CompleteLines(Concat(["da", "ta: " + json + "\n\n"])), parse) == [e]
  {
    var deliveries := ["da", "ta: " + json + "\n\n"];
    var frame := "data: " + json;
    assert Concat(deliveries) == frame + "\n\n" by {
      assert deliveries[..1] == ["da"] && ["da"][..0] == [];
    }
    FrameSplit(frame);
    assert CompleteLines(frame + "\n\n") == [frame, ""];
    FrameDecodes(frame, json, parse, e);
  }

  lemma FrameDecodes(frame: string, json: string, parse: Parser, e: SseEvent)
    requires frame == "data: " + json && !AllJsSpace(json)
    requires parse(json).Some? && ReadEvent(parse(json).value) == Some(e)
    ensures DecodeLines([frame, ""], parse) == [e]
  {
    FrameLine(frame, json, parse, e);
    assert [frame, ""][..1] == [frame];
    assert [frame][..0] == [];
    assert !StartsWith("", DataPrefix);
  }

  lemma FrameLine(frame: string, json: string, parse: Parser, e: SseEvent)
    requires frame == "data: " + json && !AllJsSpace(json)
    requires parse(json).Some? && ReadEvent(parse(json).value) == Some(e)
    ensures DecodeLine(frame, parse) == Some(e)
  {
    assert StartsWith(frame, DataPrefix);
    assert frame[|DataPrefix|..] == json;
  }

  /** None of the pieces the reader as written makes opens with `data: `. */
  lemma NoDataLines(tail: string, parse: Parser)
    requires |tail| >= 1 && tail[0] == 't'
    ensures DecodeLines(["da", tail, "", ""], parse) == []
  {
    var lines := ["da", tail, "", ""];
    assert |tail| >= 6 ==> tail[..6][0] == 't';
    assert !StartsWith(tail, DataPrefix);
    assert forall i :: 0 <= i < 4 ==> lines[i] == "da" || lines[i] == tail || lines[i] == "";
    NoLines(lines, parse);
  }

  /** The pieces the reader as written makes of the two deliveries. */
  lemma AsWrittenPieces(tail: string)
    requires '\n' !in tail
    ensures DeliveryLines(["da", tail + "\n\n"]) == ["da", tail, "", ""]
  {
    var deliveries := ["da", tail + "\n\n"];
    assert deliveries[..1] == ["da"];
    assert ["da"][..0] == [];
    NoSeparator("da", '\n');
    assert DeliveryLines(["da"]) == ["da"];
    FrameSplit(tail);
  }

  /** A line and a blank line, each ended by a line feed. */
  lemma FrameSplit(line: string)
    requires '\n' !in line
    ensures Split(line + "\n\n", '\n') == [line, "", ""]
  {
    NoSeparator(line, '\n');
    SplitAround(line, "\n", '\n');
    SplitAround([], [], '\n');
    assert line + "\n\n" == line + ['\n'] + "\n";
    assert "\n" == [] + ['\n'] + [];
  }

  /** Lines none of which opens with `data: ` carry no event. */
  lemma {:induction false} NoLines(lines: seq<string>, parse: Parser)
    requires forall i :: 0 <= i < |lines| ==> !StartsWith(lines[i], DataPrefix)
    ensures DecodeLines(lines, parse) == []
  {
    if lines != [] {
      NoLines(lines[..|lines| - 1], parse);
    }
  }
}

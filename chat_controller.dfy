/**
 * The relay orchestrator of the .NET server (ChatController): validates the request,
 * consults the health gate, opens the upstream producer, forwards each fragment as a
 * `chunk` event after a `start` event, and closes the session with one terminal
 * event; plus the server-push frame format and the health endpoint.
 *
 * The response body is the sequence of events written; the collaborator calls made
 * (health probe, generation request) are returned as a trace.
 */
module ChatController {
  import opened Base
  import opened Events
  import opened OllamaClient
  import PromptTemplates

  const InputRequiredMessage := "User input is required"
  const UnavailableMessage := "Ollama service is not available. Please ensure Ollama is running."
  const StartText := "Starting response..."
  const CompletedText := "Response completed"
  const RetryMessage := "Request timed out. Please try again."
  const CancelledText := "Request was cancelled"
  const UnexpectedMessage := "An unexpected error occurred. Please try again."

  /** What the collaborators do for one request: the health probe's verdict, the generation reply, the token. */
  datatype Upstream = Upstream(healthy: bool, reply: Reply, cancel: Cancellation)

  /** A call the controller makes to the upstream client. */
  datatype Call = ProbeHealth | Generate(request: GenerateRequest)

  /** A plain-text status response before streaming, or the stream of events written. */
  datatype Outcome = BadRequest(status: int, message: string) | EventStream(events: seq<SseEvent>)

  /**
   * The controller's catch clauses: an `InvalidOperationException` is reported with
   * its own message, a timeout with a fixed retry advice, a cancellation as
   * `cancelled`, and anything else as a generic error.
   */
  function Caught(e: Exception): (ev: SseEvent)
    ensures ev.kind == Error || ev.kind == Cancelled
    ensures ev.kind == Cancelled <==> e.OperationCanceled?
  {
    match e
    case InvalidOperation(message) => SseEvent(Error, message)
    case Timeout(_) => SseEvent(Error, RetryMessage)
    case OperationCanceled => SseEvent(Cancelled, CancelledText)
    case Unclassified => SseEvent(Error, UnexpectedMessage)
  }

  /** The event that closes a session whose loop ended normally or with an exception. */
  function Closing(failure: Option<Exception>): (ev: SseEvent)
    ensures IsTerminal(ev)
  {
    if failure.Some? then Caught(failure.value) else SseEvent(Complete, CompletedText)
  }

  /**
   * What the `await foreach` loop writes from cursor `cur` on, together with the
   * event after it: a fragment is forwarded as a `chunk` unless the token is already
   * set when it arrives, in which case the loop breaks and `complete` follows.
   */
  function Forward(reply: Reply, cancel: Cancellation, cur: Cursor): (events: seq<SseEvent>)
    requires ValidCursor(reply, cur)
    ensures |events| >= 1
    decreases Measure(reply, cur)
  {
    var r := Advance(reply, cancel, cur);
    if Forwards(cancel, r.0, r.1) then [SseEvent(Chunk, r.0.fragment)] + Forward(reply, cancel, r.1)
    else [Closing(Thrown(r.0))]
  }

  /** Whether the loop writes the step's fragment and goes on: a yield with the token still clear. */
  predicate Forwards(cancel: Cancellation, step: Step, next: Cursor) {
    step.Yielded? && !next.Fresh? && !Requested(cancel, next.consumed)
  }

  /** The exception a step raised, if any. */
  function Thrown(step: Step): Option<Exception> {
    if step.Threw? then Some(step.error) else None
  }

  /** The loop writes only `chunk`s and then exactly one terminal event. */
  lemma {:induction false} ForwardShape(reply: Reply, cancel: Cancellation, cur: Cursor)
    requires ValidCursor(reply, cur)
    ensures var events := Forward(reply, cancel, cur);
      && IsTerminal(events[|events| - 1])
      && forall i :: 0 <= i < |events| - 1 ==> events[i].kind == Chunk
    decreases Measure(reply, cur)
  {
    var r := Advance(reply, cancel, cur);
    if Forwards(cancel, r.0, r.1) {
      ForwardShape(reply, cancel, r.1);
    }
  }

  predicate IsBlankInput(request: ChatRequest) {
    IsNullOrWhiteSpace(Some(request.userInput))
  }

  /** The prompt service the controller is given: a template key and the user input to a prompt. */
  type PromptService = (Option<string>, string) -> string

  /** The generation request for a valid request: the template defaults to "general", the model to "mistral". */
  function GenerationFor(request: ChatRequest, prompts: PromptService): GenerateRequest {
    var prompt := prompts(Some(request.template.GetOr(PromptTemplates.GeneralKey)), request.userInput);
    BuildRequest(prompt, request.model.GetOr(DefaultModel))
  }

  /** What `StreamChatAsync` writes for a request. */
  function Relay(request: ChatRequest, up: Upstream): Outcome {
    if IsBlankInput(request) then BadRequest(400, InputRequiredMessage)
    else if !up.healthy then EventStream([SseEvent(Error, UnavailableMessage)])
    else EventStream([SseEvent(Start, StartText)] + Forward(up.reply, up.cancel, Fresh))
  }

  /** The upstream calls `StreamChatAsync` makes for a request. */
  function Calls(request: ChatRequest, up: Upstream, prompts: PromptService): seq<Call> {
    if IsBlankInput(request) then []
    else if !up.healthy then [ProbeHealth]
    else [ProbeHealth, Generate(GenerationFor(request, prompts))]
  }

  /**
   * The `await foreach` loop of `StreamChatAsync` and the event after it: the events
   * written after `start`, and the text accumulated in the `StringBuilder`, which is
   * the concatenation of the payloads of the `chunk` events written.
   */
  method Pump(reply: Reply, cancel: Cancellation) returns (events: seq<SseEvent>, accumulated: string)
    ensures events == Forward(reply, cancel, Fresh)
    ensures accumulated == Concat(ChunkTexts(events))
  {
    events := [];
    accumulated := "";
    var cur := Fresh;
    var failure: Option<Exception> := None;
    while true
      invariant ValidCursor(reply, cur)
      invariant events + Forward(reply, cancel, cur) == Forward(reply, cancel, Fresh)
      invariant accumulated == Concat(ChunkTexts(events))
      decreases Measure(reply, cur)
    {
      var step, next := MoveNext(reply, cancel, cur);
      if step.Threw? {
        failure := Some(step.error);
        break;
      }
      if step.Ended? || Requested(cancel, next.consumed) {
        break;
      }
      PumpStep(reply, cancel, cur, step, next, events, accumulated);
      accumulated := accumulated + step.fragment;
      events := events + [SseEvent(Chunk, step.fragment)];
      cur := next;
    }
    PumpClose(reply, cancel, cur, failure, events, accumulated);
    events := events + [Closing(failure)];
  }

  /** A forwarded fragment keeps the loop invariant of `Pump`. */
  lemma PumpStep(reply: Reply, cancel: Cancellation, cur: Cursor, step: Step, next: Cursor,
                 events: seq<SseEvent>, accumulated: string)
    requires ValidCursor(reply, cur) && (step, next) == Advance(reply, cancel, cur)
    requires Forwards(cancel, step, next)
    requires events + Forward(reply, cancel, cur) == Forward(reply, cancel, Fresh)
    requires accumulated == Concat(ChunkTexts(events))
    ensures ValidCursor(reply, next)
    ensures (events + [SseEvent(Chunk, step.fragment)]) + Forward(reply, cancel, next) == Forward(reply, cancel, Fresh)
    ensures accumulated + step.fragment == Concat(ChunkTexts(events + [SseEvent(Chunk, step.fragment)]))
  {
    var chunk := SseEvent(Chunk, step.fragment);
    ForwardAfter(reply, cancel, cur, step, next);
    assert (events + [chunk]) + Forward(reply, cancel, next) == events + ([chunk] + Forward(reply, cancel, next));
    ChunkTextsAppend(events, chunk);
  }

  /** The event after the loop completes what `Forward` describes. */
  lemma PumpClose(reply: Reply, cancel: Cancellation, cur: Cursor, failure: Option<Exception>,
                  events: seq<SseEvent>, accumulated: string)
    requires ValidCursor(reply, cur)
    requires var r := Advance(reply, cancel, cur); !Forwards(cancel, r.0, r.1) && failure == Thrown(r.0)
    requires events + Forward(reply, cancel, cur) == Forward(reply, cancel, Fresh)
    requires accumulated == Concat(ChunkTexts(events))
    ensures events + [Closing(failure)] == Forward(reply, cancel, Fresh)
    ensures accumulated == Concat(ChunkTexts(events + [Closing(failure)]))
  {
    var r := Advance(reply, cancel, cur);
    ForwardAfter(reply, cancel, cur, r.0, r.1);
    ChunkTextsAppend(events, Closing(failure));
  }

  /** What the loop writes from `cur` on, given one `MoveNextAsync` from there. */
  lemma ForwardAfter(reply: Reply, cancel: Cancellation, cur: Cursor, step: Step, next: Cursor)
    requires ValidCursor(reply, cur)
    requires (step, next) == Advance(reply, cancel, cur)
    ensures ValidCursor(reply, next)
    ensures Forward(reply, cancel, cur)
      == if Forwards(cancel, step, next) then [SseEvent(Chunk, step.fragment)] + Forward(reply, cancel, next)
         else [Closing(Thrown(step))]
  {
  }

  lemma ChunkTextsAppend(events: seq<SseEvent>, e: SseEvent)
    ensures Concat(ChunkTexts(events + [e]))
      == Concat(ChunkTexts(events)) + (if e.kind == Chunk then e.data else "")
  {
    assert (events + [e])[..|events|] == events;
    var cs := ChunkTexts(events);
    if e.kind == Chunk {
      assert (cs + [e.data])[..|cs|] == cs;
    } else {
      assert cs + [] == cs;
    }
  }

  /**
   * `StreamChatAsync`: rejects blank input with 400 before any call, answers a failed
   * health gate with one `error` event, else sends the generation request built from
   * the template and model (defaulting to "general" and "mistral") and streams the
   * session; the text it accumulates is the concatenation of the `chunk` payloads.
   */
  method StreamChat(request: ChatRequest, up: Upstream, prompts: PromptService) returns (outcome: Outcome, calls: seq<Call>, accumulated: string)
    ensures outcome == Relay(request, up)
    ensures calls == Calls(request, up, prompts)
    ensures outcome.EventStream? ==> accumulated == Concat(ChunkTexts(outcome.events))
  {
    if IsNullOrWhiteSpace(Some(request.userInput)) {
      return BadRequest(400, InputRequiredMessage), [], "";
    }
    calls := [ProbeHealth];
    if !up.healthy {
      return EventStream([SseEvent(Error, UnavailableMessage)]), calls, "";
    }
    var prompt := prompts(Some(request.template.GetOr(PromptTemplates.GeneralKey)), request.userInput);
    calls := calls + [Generate(BuildRequest(prompt, request.model.GetOr(DefaultModel)))];
    var start := SseEvent(Start, StartText);
    var events;
    events, accumulated := Pump(up.reply, up.cancel);
    ChunkTextsPrepend(start, events);
    return EventStream([start] + events), calls, accumulated;
  }

  lemma {:induction false} ChunkTextsPrepend(e: SseEvent, events: seq<SseEvent>)
    requires e.kind != Chunk
    ensures ChunkTexts([e] + events) == ChunkTexts(events)
    decreases |events|
  {
    if events == [] {
      assert [e] + events == [e];
      assert [e][..0] == [];
    } else {
      var init := events[..|events| - 1];
      ChunkTextsPrepend(e, init);
      assert ([e] + events)[..|events|] == [e] + init;
    }
  }

  // ----- Properties of the session -----

  /** Exactly one terminal event, and it is the last one. */
  predicate OneTerminalLast(events: seq<SseEvent>) {
    && |events| >= 1
    && IsTerminal(events[|events| - 1])
    && forall i :: 0 <= i < |events| - 1 ==> !IsTerminal(events[i])
  }

  /** Blank input is answered with status 400 and a fixed text, with no probe and no upstream call. */
  lemma BlankInputRejected(request: ChatRequest, up: Upstream, prompts: PromptService)
    requires IsBlankInput(request)
    ensures Relay(request, up) == BadRequest(400, InputRequiredMessage)
    ensures Calls(request, up, prompts) == []
  {
  }

  /** A failed health gate yields exactly one `error` event and the producer is never opened. */
  lemma GateClosed(request: ChatRequest, up: Upstream, prompts: PromptService)
    requires !IsBlankInput(request) && !up.healthy
    ensures Relay(request, up) == EventStream([SseEvent(Error, UnavailableMessage)])
    ensures forall c :: c in Calls(request, up, prompts) ==> !c.Generate?
  {
  }

  /**
   * With the server's template service, a valid request under an open gate is sent
   * upstream as the selected template's text (which opens with the system prompt)
   * followed by the input verbatim; the model defaults to "mistral".
   */
  lemma TemplatedGeneration(request: ChatRequest, up: Upstream)
    requires !IsBlankInput(request) && up.healthy
    ensures var calls := Calls(request, up, PromptTemplates.GetPrompt);
      var key := PromptTemplates.SelectedKey(Some(request.template.GetOr(PromptTemplates.GeneralKey)));
      && |calls| == 2 && calls[0] == ProbeHealth && calls[1].Generate?
      && calls[1].request.prompt == PromptTemplates.Lead(key) + request.userInput
      && calls[1].request.model == request.model.GetOr(DefaultModel)
  {
  }

  /**
   * Every streamed session is `start`, then `chunk`s only, then exactly one terminal
   * event, and nothing after it (or just the one `error` when the gate is closed).
   */
  lemma SessionShape(request: ChatRequest, up: Upstream)
    requires !IsBlankInput(request)
    ensures Relay(request, up).EventStream?
    ensures OneTerminalLast(Relay(request, up).events)
    ensures up.healthy ==> var events := Relay(request, up).events;
      events[0] == SseEvent(Start, StartText) && forall i :: 1 <= i < |events| - 1 ==> events[i].kind == Chunk
  {
    if up.healthy {
      ForwardShape(up.reply, up.cancel, Fresh);
      var f := Forward(up.reply, up.cancel, Fresh);
      var events := [SseEvent(Start, StartText)] + f;
      forall i | 0 <= i < |events| - 1 ensures !IsTerminal(events[i]) {
        if i > 0 { assert events[i] == f[i - 1]; }
      }
    }
  }

  /** The `chunk` events for a list of fragments, in order. */
  function ChunkEvents(fragments: seq<string>): (events: seq<SseEvent>)
    ensures |events| == |fragments|
    ensures forall i :: 0 <= i < |events| ==> events[i] == SseEvent(Chunk, fragments[i])
  {
    seq(|fragments|, i requires 0 <= i < |fragments| => SseEvent(Chunk, fragments[i]))
  }

  /** One step of the loop and of the producer, side by side. */
  lemma ForwardUnfold(reply: Reply, cancel: Cancellation, cur: Cursor)
    requires ValidCursor(reply, cur)
    ensures var r := Advance(reply, cancel, cur);
      var d := Drain(reply, cancel, cur);
      && ValidCursor(reply, r.1)
      && (r.0.Yielded? ==> d == Drained([r.0.fragment] + Drain(reply, cancel, r.1).fragments, Drain(reply, cancel, r.1).failure))
      && (!r.0.Yielded? ==> d == Drained([], Thrown(r.0)))
      && Forward(reply, cancel, cur)
         == if Forwards(cancel, r.0, r.1) then [SseEvent(Chunk, r.0.fragment)] + Forward(reply, cancel, r.1)
            else [Closing(Thrown(r.0))]
  {
  }

  /**
   * Without cancellation the loop forwards everything the producer yields, as
   * `chunk`s in order, and closes exactly as the producer ended.
   */
  lemma {:induction false} ForwardAll(reply: Reply, cur: Cursor)
    requires ValidCursor(reply, cur)
    ensures var d := Drain(reply, NotRequested, cur);
      Forward(reply, NotRequested, cur) == ChunkEvents(d.fragments) + [Closing(d.failure)]
    decreases Measure(reply, cur)
  {
    ForwardUnfold(reply, NotRequested, cur);
    var r := Advance(reply, NotRequested, cur);
    if r.0.Yielded? {
      ForwardAll(reply, r.1);
      ChunkEventsCons(r.0.fragment, Drain(reply, NotRequested, r.1).fragments);
    } else {
      assert ChunkEvents([]) == [];
    }
  }

  lemma ChunkEventsCons(s: string, fragments: seq<string>)
    ensures ChunkEvents([s] + fragments) == [SseEvent(Chunk, s)] + ChunkEvents(fragments)
  {
  }

  /**
   * Under any cancellation the loop forwards a prefix of what the producer yields, as
   * `chunk`s in order, and closes with `complete` or with the producer's own exception.
   */
  lemma {:induction false} ForwardPrefix(reply: Reply, cancel: Cancellation, cur: Cursor)
    requires ValidCursor(reply, cur)
    ensures var events := Forward(reply, cancel, cur);
      var d := Drain(reply, cancel, cur);
      exists j :: 0 <= j <= |d.fragments| && events[..|events| - 1] == ChunkEvents(d.fragments[..j])
    decreases Measure(reply, cur)
  {
    ForwardUnfold(reply, cancel, cur);
    var events := Forward(reply, cancel, cur);
    var d := Drain(reply, cancel, cur);
    var r := Advance(reply, cancel, cur);
    if Forwards(cancel, r.0, r.1) {
      ForwardPrefix(reply, cancel, r.1);
      var rest := Forward(reply, cancel, r.1);
      var dr := Drain(reply, cancel, r.1);
      var j :| 0 <= j <= |dr.fragments| && rest[..|rest| - 1] == ChunkEvents(dr.fragments[..j]);
      PrefixStep(r.0.fragment, rest, dr.fragments, j);
    } else {
      assert events[..|events| - 1] == ChunkEvents(d.fragments[..0]);
    }
  }

  /** The loop closes with `complete` or with the producer's own exception. */
  lemma {:induction false} ForwardLast(reply: Reply, cancel: Cancellation, cur: Cursor)
    requires ValidCursor(reply, cur)
    ensures var events := Forward(reply, cancel, cur);
      || events[|events| - 1] == SseEvent(Complete, CompletedText)
      || events[|events| - 1] == Closing(Drain(reply, cancel, cur).failure)
    decreases Measure(reply, cur)
  {
    var r := Advance(reply, cancel, cur);
    ForwardAfter(reply, cancel, cur, r.0, r.1);
    DrainFailure(reply, cancel, cur);
    if Forwards(cancel, r.0, r.1) {
      ForwardLast(reply, cancel, r.1);
      var rest := Forward(reply, cancel, r.1);
      assert Forward(reply, cancel, cur)[|rest|] == rest[|rest| - 1];
    }
  }

  /** The exception that ends the producer is the one of its first step, or of the steps after a yield. */
  lemma DrainFailure(reply: Reply, cancel: Cancellation, cur: Cursor)
    requires ValidCursor(reply, cur)
    ensures var r := Advance(reply, cancel, cur);
      Drain(reply, cancel, cur).failure == if r.0.Yielded? then Drain(reply, cancel, r.1).failure else Thrown(r.0)
  {
  }


  /** One more forwarded fragment extends the forwarded prefix by one. */
  lemma PrefixStep(s: string, rest: seq<SseEvent>, fragments: seq<string>, j: nat)
    requires |rest| >= 1 && j <= |fragments|
    requires rest[..|rest| - 1] == ChunkEvents(fragments[..j])
    ensures var events := [SseEvent(Chunk, s)] + rest;
      events[..|events| - 1] == ChunkEvents(([s] + fragments)[..j + 1])
  {
    var events := [SseEvent(Chunk, s)] + rest;
    assert events[..|events| - 1] == [SseEvent(Chunk, s)] + rest[..|rest| - 1];
    assert ([s] + fragments)[..j + 1] == [s] + fragments[..j];
    ChunkEventsCons(s, fragments[..j]);
  }

  /**
   * Without cancellation, a healthy session over an answered request is `start`, one
   * `chunk` per non-null response of the records up to the first `done` record, in
   * line order, then `complete` with the fixed text "Response completed" (not the
   * accumulated text) — or, when the body broke before any `done` record, the event
   * for that failure instead of `complete`.
   */
  lemma HealthySession(request: ChatRequest, up: Upstream)
    requires !IsBlankInput(request) && up.healthy
    requires up.reply.Answered? && up.reply.success && up.cancel == NotRequested
    ensures var body := up.reply.body;
      Relay(request, up) == EventStream(
        [SseEvent(Start, StartText)]
        + ChunkEvents(Responses(UpToDone(body)))
        + [if HasDone(body) || up.reply.end == EndOfStream then SseEvent(Complete, CompletedText)
           else Caught(Surface(up.reply.end.fault))])
  {
    ProducerOutput(up.reply, up.cancel);
    ForwardAll(up.reply, Fresh);
    assert up.reply.body[..|up.reply.body|] == up.reply.body;
  }

  /**
   * Cancellation noticed by the loops while the body still has lines ends the session
   * with `complete`, never with `cancelled`, after a prefix of the responses read.
   */
  lemma CancelledSessionCompletes(request: ChatRequest, up: Upstream)
    requires !IsBlankInput(request) && up.healthy
    requires up.reply.Answered? && up.reply.success
    requires up.cancel.AfterReads? && up.cancel.count < |up.reply.body|
    ensures var events := Relay(request, up).events;
      && events[|events| - 1] == SseEvent(Complete, CompletedText)
      && (forall i :: 0 <= i < |events| ==> events[i].kind != Cancelled)
      && exists j :: 0 <= j <= |Responses(UpToDone(up.reply.body[..up.cancel.count]))|
           && events[1..|events| - 1] == ChunkEvents(Responses(UpToDone(up.reply.body[..up.cancel.count]))[..j])
  {
    CancelledLoop(up.reply, up.cancel);
    var f := Forward(up.reply, up.cancel, Fresh);
    var events := [SseEvent(Start, StartText)] + f;
    assert events[1..|events| - 1] == f[..|f| - 1];
    forall i | 0 <= i < |events| ensures events[i].kind != Cancelled {
      if 0 < i { assert events[i] == f[i - 1]; }
    }
  }

  /** The loop under a cancellation noticed before the body ends: chunks of a prefix, then `complete`. */
  lemma CancelledLoop(reply: Reply, cancel: Cancellation)
    requires reply.Answered? && reply.success
    requires cancel.AfterReads? && cancel.count < |reply.body|
    ensures var f := Forward(reply, cancel, Fresh);
      var fragments := Responses(UpToDone(reply.body[..cancel.count]));
      && f[|f| - 1] == SseEvent(Complete, CompletedText)
      && (forall i :: 0 <= i < |f| ==> f[i].kind != Cancelled)
      && exists j :: 0 <= j <= |fragments| && f[..|f| - 1] == ChunkEvents(fragments[..j])
  {
    ProducerOutput(reply, cancel);
    ForwardPrefix(reply, cancel, Fresh);
    ForwardLast(reply, cancel, Fresh);
    ForwardShape(reply, cancel, Fresh);
  }

  /**
   * What each upstream failure looks like to the client: a connection failure keeps
   * its fixed message, a timeout is reported with the retry advice, a cancelled
   * request as `cancelled`, anything else as the generic error. No other text (in
   * particular, no raw exception text) ever reaches the client.
   */
  lemma FaultReports(f: Fault)
    ensures Caught(Surface(f)) == match f
      case ConnectFailure => SseEvent(Error, ConnectFailureMessage)
      case TimedOut => SseEvent(Error, RetryMessage)
      case TokenCancelled => SseEvent(Cancelled, CancelledText)
      case Unexpected => SseEvent(Error, UnexpectedMessage)
  {
  }

  /** The server-push frame: `data: `, the serialized event, and a blank line. */
  function Frame(json: string): (frame: string)
    ensures |frame| == |json| + 8
    ensures StartsWith(frame, "data: ") && frame[6..|frame| - 2] == json
    ensures frame[|frame| - 2..] == "\n\n"
  {
    "data: " + json + "\n\n"
  }

  /**
   * The fields `JsonSerializer.Serialize` writes for an event with default options:
   * the .NET property names `Type` and `Data` as declared (the timestamp is not
   * modelled).
   */
  function SerializedFields(e: SseEvent): JsonObject {
    map["Type" := TypeName(e.kind), "Data" := e.data]
  }

  /** The fields with the camel-case names `type` and `data` that the client reads. */
  function CamelCaseFields(e: SseEvent): JsonObject {
    map["type" := TypeName(e.kind), "data" := e.data]
  }

  /** The text written for a session: one frame per event, in order. */
  function Wire(events: seq<SseEvent>, fields: SseEvent -> JsonObject, serialize: JsonObject -> string): string {
    if events == [] then ""
    else Wire(events[..|events| - 1], fields, serialize) + Frame(serialize(fields(events[|events| - 1])))
  }

  /** The health endpoint's answer; its timestamp is not modelled. */
  datatype HealthStatus = HealthStatus(isHealthy: bool, ollamaStatus: string, databaseStatus: string)

  /**
   * `GetHealthAsync`: healthy only when the upstream probe succeeds and a database
   * context is present; each part's status is reported on its own.
   */
  function GetHealth(ollamaHealthy: bool, databasePresent: bool): (h: HealthStatus)
    ensures h.isHealthy <==> ollamaHealthy && databasePresent
    ensures h.ollamaStatus == (if ollamaHealthy then "Connected" else "Disconnected")
    ensures h.databaseStatus == (if databasePresent then "Connected" else "Not Available")
  {
    HealthStatus(ollamaHealthy && databasePresent,
      if ollamaHealthy then "Connected" else "Disconnected",
      if databasePresent then "Connected" else "Not Available")
  }
}

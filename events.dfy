/**
 * The value types both ends of the relay agree on: the server-push event with its
 * five-way type tag, the chat request, the chat message held by the client, and the
 * template descriptor.
 */
module Events {
  import opened Base

  /** The `type` tag of a server-push event. */
  datatype EventType = Start | Chunk | Complete | Error | Cancelled

  /** The wire name of each event type. */
  function TypeName(t: EventType): string {
    match t
    case Start => "start"
    case Chunk => "chunk"
    case Complete => "complete"
    case Error => "error"
    case Cancelled => "cancelled"
  }

  /**
   * The client's `switch (sseEvent.type)`: the event type a wire name stands for,
   * or nothing when no `case` matches.
   */
  function TypeNamed(name: string): (t: Option<EventType>)
    ensures t.Some? ==> TypeName(t.value) == name
  {
    if name == "start" then Some(Start)
    else if name == "chunk" then Some(Chunk)
    else if name == "complete" then Some(Complete)
    else if name == "error" then Some(Error)
    else if name == "cancelled" then Some(Cancelled)
    else None
  }

  /** Every event type is recognised under its own wire name, so the names are distinct. */
  lemma TypeNameRoundTrip(t: EventType)
    ensures TypeNamed(TypeName(t)) == Some(t)
  {
    match t
    case Start =>
    case Chunk => assert "chunk" != "start";
    case Complete =>
    case Error => assert "error" != "start";
    case Cancelled => assert "cancelled"[1] != "chunk"[1];
  }

  /** One server-push event; its timestamp is not modelled. */
  datatype SseEvent = SseEvent(kind: EventType, data: string)

  /** A JSON object with string fields, as a serializer writes it and `JSON.parse` reads it back. */
  type JsonObject = map<string, string>

  predicate IsTerminal(e: SseEvent) {
    e.kind == Complete || e.kind == Error || e.kind == Cancelled
  }

  /** The payloads of the `chunk` events, in order. */
  function ChunkTexts(events: seq<SseEvent>): seq<string> {
    if events == [] then []
    else
      var last := events[|events| - 1];
      ChunkTexts(events[..|events| - 1]) + (if last.kind == Chunk then [last.data] else [])
  }

  /** The request body `{userInput, template?, model?}`. */
  datatype ChatRequest = ChatRequest(userInput: string, template: Option<string>, model: Option<string>)

  datatype Role = User | Assistant

  /** `'thumbs_up' | 'thumbs_down' | null`. */
  datatype FeedbackType = ThumbsUp | ThumbsDown | NoFeedback

  /**
   * A chat message as the client holds it. The optional fields are absent (`undefined`)
   * unless set; the timestamp is not modelled.
   */
  datatype ChatMessage = ChatMessage(
    id: string,
    content: string,
    role: Role,
    template: Option<string>,
    isStreaming: Option<bool>,
    feedback: Option<FeedbackType>)

  /** A template descriptor `{key, name, description}`. */
  datatype PromptTemplate = PromptTemplate(key: string, name: string, description: string)

  /** The keys of a template list, in order. */
  function Keys(ts: seq<PromptTemplate>): (ks: seq<string>)
    ensures |ks| == |ts| && forall i :: 0 <= i < |ts| ==> ks[i] == ts[i].key
  {
    seq(|ts|, i requires 0 <= i < |ts| => ts[i].key)
  }
}

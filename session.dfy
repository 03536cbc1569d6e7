/**
 * The relay seen from end to end: the frames the controller writes are read back by
 * the client's line reader. With camel-case field names every event arrives and a
 * healthy session leaves the answer holding the concatenated fragments; with the
 * field names the serializer writes by default no event is recognised at all.
 */
module Session {
  import opened Base
  import opened Events
  import opened OllamaClient
  import opened ChatController
  import opened ChatService

  /**
   * What is assumed of the JSON serializer and of `JSON.parse`: a serialized object
   * fits on one line, is not blank, and parses back to the same object.
   */
  ghost predicate JsonRoundTrips(serialize: JsonObject -> string, parse: Parser) {
    forall o: JsonObject :: '\n' !in serialize(o) && !AllJsSpace(serialize(o)) && parse(serialize(o)) == Some(o)
  }

  function Listed(e: Option<SseEvent>): seq<SseEvent> {
    if e.Some? then [e.value] else []
  }

  /** The events the client recognises among objects written with the given field names, in order. */
  function Readable(events: seq<SseEvent>, fields: SseEvent -> JsonObject): (r: seq<SseEvent>)
    ensures |r| <= |events|
  {
    if events == [] then []
    else Readable(events[..|events| - 1], fields) + Listed(ReadEvent(fields(events[|events| - 1])))
  }

  /** An event written with camel-case field names is read back as itself. */
  lemma CamelCaseRead(e: SseEvent)
    ensures ReadEvent(CamelCaseFields(e)) == Some(e)
  {
    TypeNameRoundTrip(e.kind);
    var o := CamelCaseFields(e);
    assert "type" in o && o["type"] == TypeName(e.kind);
  }

  /** An event written with the default .NET field names has no `type` field, so it is not recognised. */
  lemma SerializedUnread(e: SseEvent)
    ensures ReadEvent(SerializedFields(e)) == None
  {
    assert "type"[0] != "Type"[0] && "type"[0] != "Data"[0];
    assert "type" !in SerializedFields(e);
  }

  lemma {:induction false} ReadableCamel(events: seq<SseEvent>)
    ensures Readable(events, CamelCaseFields) == events
    decreases |events|
  {
    if events != [] {
      var n := |events| - 1;
      ReadableCamel(events[..n]);
      CamelCaseRead(events[n]);
      assert events[..n] + [events[n]] == events;
    }
  }

  lemma {:induction false} ReadableSerialized(events: seq<SseEvent>)
    ensures Readable(events, SerializedFields) == []
    decreases |events|
  {
    if events != [] {
      var n := |events| - 1;
      ReadableSerialized(events[..n]);
      SerializedUnread(events[n]);
    }
  }

  /** A frame is a complete `data:` line and a complete blank line, with nothing left over. */
  lemma FrameLines(json: string)
    requires '\n' !in json
    ensures CompleteLines(Frame(json)) == ["data: " + json, ""]
    ensures Remainder(Frame(json)) == ""
  {
    var line := "data: " + json;
    assert '\n' !in line by {
      forall i | 0 <= i < |line| ensures line[i] != '\n' {
        if i >= 6 { assert line[i] == json[i - 6]; }
      }
    }
    FrameSplit(line);
  }

  /** The lines of a frame carry the event the client reads from its object, if any. */
  lemma FrameEvent(json: string, parse: Parser)
    requires '\n' !in json && !AllJsSpace(json) && parse(json).Some?
    ensures DecodeLines(CompleteLines(Frame(json)), parse) == Listed(ReadEvent(parse(json).value))
  {
    FrameLines(json);
    var line := "data: " + json;
    assert StartsWith(line, DataPrefix);
    assert line[|DataPrefix|..] == json;
    assert DecodeLine(line, parse) == ReadEvent(parse(json).value);
    assert [line, ""][..1] == [line];
    assert [line][..0] == [];
    assert !StartsWith("", DataPrefix);
  }

  /**
   * Everything the controller writes for a session is complete lines, and the
   * client decodes from them exactly the events whose fields it recognises.
   */
  lemma {:induction false} WireDecodes(events: seq<SseEvent>, fields: SseEvent -> JsonObject,
                                       serialize: JsonObject -> string, parse: Parser)
    requires JsonRoundTrips(serialize, parse)
    ensures Remainder(Wire(events, fields, serialize)) == ""
    ensures DecodeLines(CompleteLines(Wire(events, fields, serialize)), parse) == Readable(events, fields)
    decreases |events|
  {
    if events == [] {
      NoSeparator("", '\n');
    } else {
      var init, last := events[..|events| - 1], events[|events| - 1];
      var json := serialize(fields(last));
      var w := Wire(init, fields, serialize);
      WireDecodes(init, fields, serialize, parse);
      LinesAppend(w, Frame(json));
      assert "" + Frame(json) == Frame(json);
      FrameLines(json);
      FrameEvent(json, parse);
      DecodeLinesAppend(CompleteLines(w), CompleteLines(Frame(json)), parse);
    }
  }

  lemma {:induction false} ChunkTextsOfChunks(fragments: seq<string>)
    ensures ChunkTexts(ChunkEvents(fragments)) == fragments
    decreases |fragments|
  {
    if fragments != [] {
      var n := |fragments| - 1;
      ChunkTextsOfChunks(fragments[..n]);
      assert ChunkEvents(fragments)[..n] == ChunkEvents(fragments[..n]);
    }
  }

  /** A session that opens, streams the fragments and completes leaves the reader finished with the fragments joined. */
  lemma ReadsSession(fragments: seq<string>)
    ensures var p := Run([SseEvent(Start, StartText)] + ChunkEvents(fragments) + [SseEvent(Complete, CompletedText)]);
      p.finished && p.update.content == Some(Concat(fragments)) && p.update.isStreaming == Some(false)
  {
    var pre := [SseEvent(Start, StartText)] + ChunkEvents(fragments);
    var events := pre + [SseEvent(Complete, CompletedText)];
    assert events[..|events| - 1] == pre;
    assert !Run(pre).finished by {
      forall i | 0 <= i < |pre| ensures !Returns(pre[i]) {
        if i > 0 { assert pre[i] == ChunkEvents(fragments)[i - 1]; }
      }
    }
    RunAccumulates(pre);
    ChunkTextsPrepend(SseEvent(Start, StartText), ChunkEvents(fragments));
    ChunkTextsOfChunks(fragments);
  }

  /**
   * With camel-case field names, a healthy, uncancelled session whose body ended
   * (or reached a `done` record) is shown in full by the client's reader when each
   * read returns whole lines: the answer ends up holding the concatenated responses
   * and is no longer streaming.
   */
  lemma CamelCaseSessionShown(request: ChatRequest, up: Upstream, deliveries: seq<string>, end: StreamEnd,
                              serialize: JsonObject -> string, parse: Parser, id: string)
    requires !IsBlankInput(request) && up.healthy
    requires up.reply.Answered? && up.reply.success && up.cancel == NotRequested
    requires HasDone(up.reply.body) || up.reply.end == EndOfStream
    requires JsonRoundTrips(serialize, parse)
    requires Concat(deliveries) == Wire(Relay(request, up).events, CamelCaseFields, serialize)
    requires LineAligned(deliveries)
    ensures var m := Apply(Placeholder(id), SendUpdate(Response(true, 200, Some(Body(deliveries, end))), parse));
      m.content == Concat(Responses(UpToDone(up.reply.body))) && m.isStreaming == Some(false)
  {
    BufferedSessionShown(request, up, deliveries, end, serialize, parse);
    ReadAligned(Body(deliveries, end), parse);
    FinishedShown(Body(deliveries, end), parse);
  }

  /**
   * With camel-case field names and a reader that carries unfinished lines across
   * deliveries, the same session is shown in full however its text was cut.
   */
  lemma BufferedSessionShown(request: ChatRequest, up: Upstream, deliveries: seq<string>, end: StreamEnd,
                             serialize: JsonObject -> string, parse: Parser)
    requires !IsBlankInput(request) && up.healthy
    requires up.reply.Answered? && up.reply.success && up.cancel == NotRequested
    requires HasDone(up.reply.body) || up.reply.end == EndOfStream
    requires JsonRoundTrips(serialize, parse)
    requires Concat(deliveries) == Wire(Relay(request, up).events, CamelCaseFields, serialize)
    ensures var p := Received(Body(deliveries, end), parse);
      p.finished && p.update.content == Some(Concat(Responses(UpToDone(up.reply.body))))
      && p.update.isStreaming == Some(false)
  {
    HealthySession(request, up);
    var events := Relay(request, up).events;
    var fragments := Responses(UpToDone(up.reply.body));
    assert events == [SseEvent(Start, StartText)] + ChunkEvents(fragments) + [SseEvent(Complete, CompletedText)];
    CamelCaseReceived(events, Body(deliveries, end), serialize, parse);
    ReadsSession(fragments);
  }

  /** Whatever the deliveries, the client reads exactly the events written with camel-case field names. */
  lemma CamelCaseReceived(events: seq<SseEvent>, body: Body, serialize: JsonObject -> string, parse: Parser)
    requires JsonRoundTrips(serialize, parse)
    requires Concat(body.deliveries) == Wire(events, CamelCaseFields, serialize)
    ensures Received(body, parse) == Run(events)
  {
    WireDecodes(events, CamelCaseFields, serialize, parse);
    ReadableCamel(events);
  }

  /** Once the reader has returned, how the connection ended no longer matters: the reader's updates stand. */
  lemma FinishedShown(body: Body, parse: Parser)
    requires Read(body, parse).finished
    ensures SendUpdate(Response(true, 200, Some(body)), parse) == Read(body, parse).update
  {
  }

  /**
   * With the field names the serializer writes by default, whatever the session
   * was, the client recognises no event when each read returns whole lines: a body
   * that ends normally leaves the answer empty and streaming for good, and a broken
   * one ends in the apology.
   */
  lemma SerializedSessionLost(events: seq<SseEvent>, deliveries: seq<string>, end: StreamEnd,
                              serialize: JsonObject -> string, parse: Parser, id: string)
    requires JsonRoundTrips(serialize, parse)
    requires Concat(deliveries) == Wire(events, SerializedFields, serialize)
    requires LineAligned(deliveries)
    ensures var m := Apply(Placeholder(id), SendUpdate(Response(true, 200, Some(Body(deliveries, end))), parse));
      && (end == Finished ==> m == Placeholder(id))
      && (end == Broken ==> m.content == Apology && m.isStreaming == Some(false))
  {
    ReadAligned(Body(deliveries, end), parse);
    WireDecodes(events, SerializedFields, serialize, parse);
    ReadableSerialized(events);
    ApplyMerge(Placeholder(id), NoUpdate, NoUpdate);
  }
}

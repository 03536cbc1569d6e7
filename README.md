# DevAssistant chat relay — a Dafny model

DevAssistant streams answers from a local Ollama server to a browser. The model
covers both ends of that stream:

- **OllamaClient** (.NET, `OllamaClient.cs`) sends the generation request and reads
  Ollama's newline-delimited JSON body as a lazy producer of text fragments. It is
  modelled as a suspended generator (`Cursor`) with a `MoveNext` method that runs the
  read loop up to the next fragment, proved equal to the step function `Advance`.
  `Drain` is its whole output, and `ProducerOutput` ties that output to an
  independent description: the responses of the records up to the first `done`
  record.
- **PromptTemplateService** (.NET) is a read-only table of six composite format
  strings, a lookup that falls back to `general`, and the list of templates offered
  to clients.
- **ChatController** (.NET) runs one streaming session per request:
  - validates the input and probes Ollama's health;
  - writes `start`, forwards each fragment as a `chunk`, and closes with one
    terminal event;
  - frames each event as `data: <json>\n\n`, and serves the health endpoint.
  
  `Pump` is the `await foreach` loop, proved against the function `Forward`.
  `StreamChat` is the whole action, proved against `Relay` (the events written) and
  `Calls` (the upstream calls made).
- **ChatService** (Angular) is a class with the client's message list and its
  connection and streaming flags. Its reader turns the text of a streamed response
  into updates of the assistant's message. The loops of `streamWithFetch` are the
  methods `ReadBody`, `HandleLines` and `DispatchLine`. They are proved against the
  function `Read`: each delivery is split into lines on its own, as the code does.
  Beside them, `ReadBodyBuffered` is the same loop with a buffer carried across
  deliveries, proved against the function `Received`.
- **ChatComponent** (Angular) is a class holding the input, the selected template
  and the loaded template list:
  - the send guard and the request it builds;
  - the Enter key;
  - the fallback template list and the name lookup.
- **Session** connects the two sides: the frames the controller writes, read back by
  the client's reader.

The network, the JSON serializer and `JSON.parse` are parameters. A `Reply` is what
the generation request produced: a failure, or a status and the body's lines as the
deserializer classified them. A `FetchResult` is what the browser's `fetch`
produced; the response text comes as the deliveries its reads returned. The
cancellation token is `AfterReads(n)`: it reads as set once `n` body lines have been
read.

Where the code and its design description disagree, the model follows the code:

- `complete` carries the fixed text `Response completed`, not the accumulated answer.
- Cancellation noticed inside the read loops ends the session with `complete`, not
  `cancelled` (`CancelledSessionCompletes`). Only a cancellation that surfaces as an
  exception produces `cancelled`.
- On the client, an `error` event does not stop the reader. The `throw` in its
  `case` is caught by the per-line `catch`, so reading goes on (`ErrorKeepsReading`).
- The client has no buffer across deliveries (see Findings). The service class reads
  as the code does. The buffered reader is modelled beside it as the correction.

## Model

| member | source | states |
|---|---|---|
| Base.Trim | DevAssistant.Frontend/src/app/services/chat.service.ts:111 | `trim()` returns the slice of the text between the white space at its two ends: only white space is removed, at the ends, and the result is empty exactly when every character is JavaScript white space; otherwise it starts and ends with a character that is not |
| Base.JoinSplit | DevAssistant.Frontend/src/app/services/chat.service.ts:105 | joining the pieces of `split('\n')` with line feeds gives back the text |
| Events.TypeNamed | DevAssistant.Frontend/src/app/services/chat.service.ts:116-149 | a recognised `type` tag is the wire name of the event type it selects |
| Events.TypeNameRoundTrip | DevAssistant.Frontend/src/app/services/chat.service.ts:116-149 | every event type the server writes is recognised under its own name, so the five names are distinct |
| OllamaClient.BuildRequest | DevAssistant.Api/Services/OllamaClient.cs:24-35 | the request carries the prompt and model given, asks for streaming, and sets top-k to 40 |
| OllamaClient.Scan | DevAssistant.Api/Services/OllamaClient.cs:59-85 | the read loop either yields a fragment and moves past the line that held it, or finishes the generator |
| OllamaClient.Advance | DevAssistant.Api/Services/OllamaClient.cs:46-85 | one `MoveNextAsync` keeps the cursor within the body, each yield leaves less work, and every other outcome finishes the generator |
| OllamaClient.MoveNext | DevAssistant.Api/Services/OllamaClient.cs:19-97 | the generator's resumed loop returns exactly the step and cursor of `Advance`, and a yield strictly decreases the work left |
| OllamaClient.UpToDone | DevAssistant.Api/Services/OllamaClient.cs:80-84 | the lines through the first `done` record: a prefix with no earlier `done` record, and the whole body when there is none |
| OllamaClient.Limit | DevAssistant.Api/Services/OllamaClient.cs:59 | the loop stops reading before the end of the body exactly when the token is set before then |
| OllamaClient.ReferenceHead | DevAssistant.Api/Services/OllamaClient.cs:59-85 | the reference output, one line at a time: a line's response, then the rest unless the line is a `done` record |
| OllamaClient.DrainLine | DevAssistant.Api/Services/OllamaClient.cs:61-84 | reading one line contributes its response and stops after a `done` record; blank and malformed lines only move on |
| OllamaClient.DrainFrom | DevAssistant.Api/Services/OllamaClient.cs:59-85 | from any line on, the producer yields the responses through the first `done` record among the lines read before cancellation. The body's failure is raised only when the loop reaches the end without a `done` record |
| OllamaClient.ProducerOutput | DevAssistant.Api/Services/OllamaClient.cs:46-91 | the producer's whole output is the non-null responses, in order, through the first `done` record; malformed lines never stop it; a non-success status yields nothing and raises the connection-failure exception |
| OllamaClient.UnreachableOutput | DevAssistant.Api/Services/OllamaClient.cs:87-96 | a request that never reached the server yields nothing and raises its classified failure |
| OllamaClient.IsHealthy | DevAssistant.Api/Services/OllamaClient.cs:99-110 | healthy exactly when the probe returned a success status; an exception reads as unhealthy |
| PromptTemplates.FormatLength | DevAssistant.Api/Services/PromptTemplateService.cs:94 | the formatted length is the length of the literal runs plus one argument length per `{0}` item |
| PromptTemplates.FormatPiece | DevAssistant.Api/Services/PromptTemplateService.cs:94 | a literal run formats to itself, and the item `{0}` to the argument |
| PromptTemplates.FormatConcat | DevAssistant.Api/Services/PromptTemplateService.cs:94 | formatting a format cut in two gives the two halves' texts joined; with `FormatPiece`, the argument appears exactly at the items and nothing else is added |
| PromptTemplates.Lead | DevAssistant.Api/Services/PromptTemplateService.cs:5-84 | every template's text opens with the system prompt |
| PromptTemplates.SelectedKey | DevAssistant.Api/Services/PromptTemplateService.cs:89-92 | a known key is kept; a missing, blank or unknown key becomes `general`; the result is always in the table |
| PromptTemplates.FormatLead | DevAssistant.Api/Services/PromptTemplateService.cs:94 | a one-item template formats to its text followed by the argument |
| PromptTemplates.GetPrompt | DevAssistant.Api/Services/PromptTemplateService.cs:87-95 | the prompt is the selected template's text followed by the user input verbatim, and it opens with the system prompt |
| PromptTemplates.GetAvailableTemplates | DevAssistant.Api/Services/PromptTemplateService.cs:97-108 | six descriptors, `general` first, with distinct keys that are exactly the keys of the template table |
| ChatController.Caught | DevAssistant.Api/Controllers/ChatController.cs:93-112 | every caught exception becomes an `error` or a `cancelled` event, and `cancelled` exactly for a cancellation |
| ChatController.Closing | DevAssistant.Api/Controllers/ChatController.cs:89-112 | the event that closes a session is always terminal |
| ChatController.ForwardShape | DevAssistant.Api/Controllers/ChatController.cs:76-112 | the loop writes only `chunk`s followed by exactly one terminal event |
| ChatController.Pump | DevAssistant.Api/Controllers/ChatController.cs:73-89 | the loop writes the events of `Forward`, and the accumulated text is the concatenation of the `chunk` payloads written |
| ChatController.PumpStep | DevAssistant.Api/Controllers/ChatController.cs:81-84 | forwarding a fragment keeps the loop's invariant: events so far plus the rest make the session, and the text matches the chunks |
| ChatController.PumpClose | DevAssistant.Api/Controllers/ChatController.cs:89-112 | the event written after the loop completes the session `Forward` describes |
| ChatController.ForwardAfter | DevAssistant.Api/Controllers/ChatController.cs:76-86 | one fragment with the token clear is forwarded as a `chunk`; anything else closes the session |
| ChatController.StreamChat | DevAssistant.Api/Controllers/ChatController.cs:39-113 | the action writes the events of `Relay` and makes the calls of `Calls`; a streamed session's accumulated text is its `chunk` payloads joined |
| ChatController.BlankInputRejected | DevAssistant.Api/Controllers/ChatController.cs:41-46 | blank input gets status 400 with a fixed text, and no upstream call is made |
| ChatController.GateClosed | DevAssistant.Api/Controllers/ChatController.cs:58-63 | when the health probe fails, the session is the one unavailability `error` event and no generation request is sent |
| ChatController.TemplatedGeneration | DevAssistant.Api/Controllers/ChatController.cs:58-76 | a valid request under an open gate makes exactly two calls: the probe, then a generation request. Its prompt is the selected template's text (default `general`) followed by the input; its model defaults to `mistral` |
| ChatController.SessionShape | DevAssistant.Api/Controllers/ChatController.cs:58-112 | every streamed session has exactly one terminal event and it is last; an open gate starts with `start` and has only `chunk`s in between |
| ChatController.ChunkEvents | DevAssistant.Api/Controllers/ChatController.cs:84 | one `chunk` event per fragment, in order |
| ChatController.ForwardUnfold | DevAssistant.Api/Controllers/ChatController.cs:76-86 | one step of the loop and of the producer, side by side |
| ChatController.ForwardAll | DevAssistant.Api/Controllers/ChatController.cs:76-112 | without cancellation, the loop forwards everything the producer yields, in order, and closes exactly as the producer ended |
| ChatController.ForwardPrefix | DevAssistant.Api/Controllers/ChatController.cs:76-86 | under any cancellation, the chunks written are a prefix of what the producer yields, in order |
| ChatController.ForwardLast | DevAssistant.Api/Controllers/ChatController.cs:76-112 | the loop closes with `complete` or with the event for the producer's own exception |
| ChatController.HealthySession | DevAssistant.Api/Controllers/ChatController.cs:58-112 | a healthy, uncancelled session writes `start`, one `chunk` per non-null response through the first `done` record, then `complete` with its fixed text. When the body broke before a `done` record, the last event reports that failure instead |
| ChatController.CancelledSessionCompletes | DevAssistant.Api/Controllers/ChatController.cs:76-89 | cancellation noticed while the body still has lines ends the session with `complete` and never `cancelled`, after chunks of a prefix of the responses read |
| ChatController.CancelledLoop | DevAssistant.Api/Controllers/ChatController.cs:76-89 | the loop under such a cancellation: chunks of a prefix, then `complete`, and no `cancelled` event |
| ChatController.FaultReports | DevAssistant.Api/Controllers/ChatController.cs:93-112 | what each upstream failure looks like to the client: a fixed message per kind, and no raw exception text |
| ChatController.Frame | DevAssistant.Api/Controllers/ChatController.cs:146 | a frame is `data: `, the serialized event, and two line feeds |
| ChatController.GetHealth | DevAssistant.Api/Controllers/ChatController.cs:122-134 | healthy only when both the probe and the database context are; each part reports its own status text |
| ChatService.Apply | DevAssistant.Frontend/src/app/services/chat.service.ts:200 | a spread update never changes a message's id, role or template |
| ChatService.ApplyMerge | DevAssistant.Frontend/src/app/services/chat.service.ts:197-203 | two updates in turn equal their merge, in which the later one wins field by field; the empty update changes nothing |
| ChatService.UpdateAll | DevAssistant.Frontend/src/app/services/chat.service.ts:197-203 | the messages with the id are updated, all others are kept, and the list keeps its length and order |
| ChatService.UpdateAllMerge | DevAssistant.Frontend/src/app/services/chat.service.ts:197-203 | two updates of the same message compose into their merge over the whole list |
| ChatService.UpdateAllAppend | DevAssistant.Frontend/src/app/services/chat.service.ts:197-203 | updating an id no earlier message carries touches only the messages added after them |
| ChatService.ReadEvent | DevAssistant.Frontend/src/app/services/chat.service.ts:114-149 | an object is read as an event exactly when its `type` names one of the five types. Its `data` is carried over when present |
| ChatService.DecodeLine | DevAssistant.Frontend/src/app/services/chat.service.ts:108-114 | a line yields an event exactly when it opens with `data: `, its payload is not blank, and the payload parses to an object of a known type; the event is the one read from that object |
| ChatService.DecodeLinesAppend | DevAssistant.Frontend/src/app/services/chat.service.ts:107-154 | decoding lines distributes over concatenation |
| ChatService.Run | DevAssistant.Frontend/src/app/services/chat.service.ts:116-149 | the reader has returned exactly when some event so far is `complete` or `cancelled` |
| ChatService.RunFinished | DevAssistant.Frontend/src/app/services/chat.service.ts:129-148 | once the reader has returned, later events have no effect |
| ChatService.RunAccumulates | DevAssistant.Frontend/src/app/services/chat.service.ts:121-127 | until the reader returns, the accumulated text is the concatenation of the `chunk` payloads |
| ChatService.ErrorKeepsReading | DevAssistant.Frontend/src/app/services/chat.service.ts:136-152 | an `error` event shows `Error: <data>` and clears the streaming flag, but the reader does not return |
| ChatService.LinesRejoin | DevAssistant.Frontend/src/app/services/chat.service.ts:104-105 | the buffered split loses nothing: the complete lines, each with its line feed, followed by the unfinished remainder give back the text |
| ChatService.LinesAppend | DevAssistant.Frontend/src/app/services/chat.service.ts:99-107 | the complete lines of more text are those before it, then those of the unfinished line continued by the new text |
| ChatService.ChatService.constructor | DevAssistant.Frontend/src/app/services/chat.service.ts:12-19 | a new service holds no messages and is neither connected nor streaming |
| ChatService.ChatService.CheckHealth | DevAssistant.Frontend/src/app/services/chat.service.ts:165-175 | connected exactly when the health endpoint answered and reported healthy; nothing else changes |
| ChatService.ChatService.AddMessage | DevAssistant.Frontend/src/app/services/chat.service.ts:192-195 | the message is appended and the flags are unchanged |
| ChatService.ChatService.UpdateMessage | DevAssistant.Frontend/src/app/services/chat.service.ts:197-203 | the list becomes `UpdateAll` of the old one and the flags are unchanged |
| ChatService.ChatService.SubmitFeedback | DevAssistant.Frontend/src/app/services/chat.service.ts:177-182 | only the feedback of the messages with the id changes |
| ChatService.ChatService.ClearMessages | DevAssistant.Frontend/src/app/services/chat.service.ts:184-186 | the list is emptied and the flags are unchanged |
| ChatService.ChatService.DispatchLine | DevAssistant.Frontend/src/app/services/chat.service.ts:108-152 | a line carrying an event makes that event's update, accumulates its text and says whether the `case` returned; any other line changes nothing |
| ChatService.ChatService.HandleLines | DevAssistant.Frontend/src/app/services/chat.service.ts:107-154 | after a delivery's lines, either the reader is still going with its updates applied, or it returned and the later lines had no effect |
| ChatService.ChatService.ReadBody | DevAssistant.Frontend/src/app/services/chat.service.ts:94-158 | each delivery is split on its own and every piece handled as a line: the updates are those of `Read`, and the loop throws exactly when the connection broke before the reader returned |
| ChatService.ChatService.ReadBodyBuffered | DevAssistant.Frontend/src/app/services/chat.service.ts:99-105 | the corrected loop, with a buffer carried across deliveries: the updates are those of the reader over the complete lines of everything received, and it throws exactly when the connection broke before the reader returned |
| ChatService.ChatService.StreamWithFetch | DevAssistant.Frontend/src/app/services/chat.service.ts:76-159 | the call fails exactly for a rejected fetch, an error status, a missing body or a broken read before the reader returned; the message gets the updates of the reader as written |
| ChatService.ChatService.SendMessage | DevAssistant.Frontend/src/app/services/chat.service.ts:25-60 | the user's message and a streaming placeholder are appended. The updates of the reader as written go to the placeholder, the apology replaces them on failure, and the streaming flag ends down |
| ChatService.LineStep | DevAssistant.Frontend/src/app/services/chat.service.ts:107-154 | one pass of the per-line loop keeps the reader's state, or ends with the reader returned |
| ChatService.ReturnedStays | DevAssistant.Frontend/src/app/services/chat.service.ts:129-148 | once the reader has returned, the lines after it change nothing |
| ChatService.ReturnIsFinal | DevAssistant.Frontend/src/app/services/chat.service.ts:99-148 | when the reader returned within the first deliveries, the rest of the body does not change its result |
| ChatService.DeliveryStep | DevAssistant.Frontend/src/app/services/chat.service.ts:104-107 | one more delivery adds its own pieces to the lines the reader as written has handled |
| ChatService.DeliveryLinesAppend | DevAssistant.Frontend/src/app/services/chat.service.ts:99-107 | the reader as written handles the deliveries one after another: its lines distribute over concatenation |
| ChatService.ReadReturnIsFinal | DevAssistant.Frontend/src/app/services/chat.service.ts:129-148 | when the reader as written returned within the first deliveries, the rest of the body does not change its result |
| ChatService.ReadAligned | DevAssistant.Frontend/src/app/services/chat.service.ts:104-105 | for deliveries that end at line ends, the reader as written and the buffered reader agree |
| ChatService.SentMessages | DevAssistant.Frontend/src/app/services/chat.service.ts:25-60 | with fresh ids, the earlier messages and the user's message stay as they were, and only the placeholder takes the updates |
| ChatService.FailureApologises | DevAssistant.Frontend/src/app/services/chat.service.ts:51-56 | a failed stream leaves the answer reading as the apology and no longer streaming, whatever was shown before |
| ChatService.DeliveryBoundariesIrrelevant | DevAssistant.Frontend/src/app/services/chat.service.ts:99-105 | with the buffer, cutting a delivery in two anywhere changes nothing the reader sees |
| ChatService.AlignedDeliveries | DevAssistant.Frontend/src/app/services/chat.service.ts:99-107 | when every delivery ends at a line end, the reader as written and the buffered reader see the same events |
| ChatService.SplitFrameLostAsWritten | DevAssistant.Frontend/src/app/services/chat.service.ts:104-111 | a frame cut inside its `data: ` prefix across two deliveries gives no event and no update as written; the buffered reader decodes it |
| ChatComponent.FallbackTemplates | DevAssistant.Frontend/src/app/components/chat.component.ts:212-216 | the fallback list offers `error-explain`, `refactor` and `sql-helper`, in that order |
| ChatComponent.Find | DevAssistant.Frontend/src/app/components/chat.component.ts:190 | `find` returns the first template with the key, and nothing exactly when no template has it |
| ChatComponent.TemplateName | DevAssistant.Frontend/src/app/components/chat.component.ts:189-192 | the name of the first template with the key, or the key itself when there is none or its name is empty |
| ChatComponent.ChatComponent.GetTemplateName | DevAssistant.Frontend/src/app/components/chat.component.ts:189-192 | over the templates loaded so far: the key itself when no template has it, otherwise the first match's name, or the key when that name is empty |
| ChatComponent.RequestFor | DevAssistant.Frontend/src/app/components/chat.component.ts:162-166 | the request carries the trimmed input and the model `mistral`; it names a template exactly when one is selected |
| ChatComponent.ChatComponent.constructor | DevAssistant.Frontend/src/app/components/chat.component.ts:128-138 | a new component has an empty input, no selection and no templates |
| ChatComponent.ChatComponent.SendMessage | DevAssistant.Frontend/src/app/components/chat.component.ts:159-172 | a blank input or a running answer changes nothing: input, selection, templates, the service's messages and both its flags stay. Otherwise the input and selection are cleared, the service sends the request built from them and ends not streaming, and the templates and the connection flag stay |
| ChatComponent.ChatComponent.Submit | DevAssistant.Frontend/src/app/components/chat.component.ts:168-171 | the input and selection are cleared before the service sends the request |
| ChatComponent.ChatComponent.OnEnterKey | DevAssistant.Frontend/src/app/components/chat.component.ts:174-179 | Shift+Enter keeps the key's default action and changes nothing. A plain Enter cancels it and does what `sendMessage` does: blocked, nothing changes; let through, the input and selection are cleared and the service's messages take the user message and the placeholder with the reader's updates, not streaming. The templates and the connection flag always stay |
| ChatComponent.ChatComponent.LoadTemplates | DevAssistant.Frontend/src/app/components/chat.component.ts:204-219 | the templates received, or the fallback list when the request failed |
| ChatComponent.ChatComponent.SubmitFeedback | DevAssistant.Frontend/src/app/components/chat.component.ts:181-183 | only the feedback of the messages with the id changes; both of the service's flags stay |
| ChatComponent.ChatComponent.ClearChat | DevAssistant.Frontend/src/app/components/chat.component.ts:185-187 | the service's message list is emptied; both of its flags stay |
| ChatComponent.GuardIgnoresStreamingAsWritten | DevAssistant.Frontend/src/app/components/chat.component.ts:160 | the guard as written lets a non-blank input through while an answer streams; the intended guard does not |
| ChatComponent.GuardBlocks | DevAssistant.Frontend/src/app/components/chat.component.ts:160-163 | the intended guard sends exactly a non-blank input while nothing streams, and then the request's input is not empty |
| ChatComponent.FallbackHasNoGeneral | DevAssistant.Frontend/src/app/components/chat.component.ts:189-216 | with the fallback list, `general` is shown as its own key and `refactor` as `Code Refactoring` |
| Session.CamelCaseRead | DevAssistant.Frontend/src/app/services/chat.service.ts:114-149 | an event written with the field names `type` and `data` is read back as itself |
| Session.SerializedUnread | DevAssistant.Api/Controllers/ChatController.cs:145 | an event written with the default .NET names `Type` and `Data` is not recognised by the client |
| Session.ReadableCamel | DevAssistant.Api/Controllers/ChatController.cs:136-149 | with camel-case names, the client recognises every event written, in order |
| Session.ReadableSerialized | DevAssistant.Api/Controllers/ChatController.cs:136-149 | with the default names, the client recognises none of the events written |
| Session.FrameLines | DevAssistant.Api/Controllers/ChatController.cs:146 | a frame is one complete `data:` line and one complete blank line, with nothing left over |
| Session.FrameEvent | DevAssistant.Frontend/src/app/services/chat.service.ts:107-114 | the lines of a frame carry exactly the event the client reads from its object |
| Session.WireDecodes | DevAssistant.Api/Controllers/ChatController.cs:136-149 | everything the controller writes is complete lines, and the client decodes from them exactly the events it recognises, in order |
| Session.ReadsSession | DevAssistant.Frontend/src/app/services/chat.service.ts:116-134 | `start`, the chunks and `complete` leave the reader returned, with the fragments joined and streaming off |
| Session.CamelCaseReceived | DevAssistant.Api/Controllers/ChatController.cs:145-146 | however the text is cut into deliveries, the client reads exactly the events written with camel-case names |
| Session.FinishedShown | DevAssistant.Frontend/src/app/services/chat.service.ts:129-148 | once the reader has returned, a later broken connection does not change what is shown |
| Session.CamelCaseSessionShown | DevAssistant.Api/Controllers/ChatController.cs:76-89 | end to end with camel-case names and the reader as written, when each read returns whole lines: a healthy, uncancelled, answered session leaves the answer holding the concatenated responses and not streaming |
| Session.BufferedSessionShown | DevAssistant.Api/Controllers/ChatController.cs:76-89 | end to end with camel-case names and the buffered reader, however the text is cut: the reader returns with the concatenated responses and streaming off |
| Session.SerializedSessionLost | DevAssistant.Api/Controllers/ChatController.cs:145 | end to end with the default names and the reader as written, when each read returns whole lines: a body that ends normally leaves the answer empty and streaming for good; a broken one shows the apology |

## Left out

- Logging, the response headers of the stream, and the request URLs are not modelled. The base URL configuration is not modelled either.
- Time is not modelled: event and message timestamps are omitted, and `generateId` is replaced by ids passed as parameters.
- The sampling options `temperature` and `top_p` are floating point and are not modelled; only `top_k` (40) is.
- JSON is modelled as objects with string fields. The serializer and `JSON.parse` are function parameters, assumed to round-trip (`Session.JsonRoundTrips`). The upstream body comes already classified, line by line, by the .NET deserializer. A `null` line reads as a skipped line.
- The bytes of the response body and `TextDecoder` are not modelled: deliveries are decoded text.
- Session.SerializedSessionLost: stated for deliveries that each end at a line end. With other cuts, the reader as written handles pieces cut from inside a serialized object, and the abstract `JSON.parse` says nothing about those.
- Session.CamelCaseSessionShown: stated for deliveries that each end at a line end, for the same reason. For any cut, the reader as written can lose frames (Findings); `Session.BufferedSessionShown` states the corrected reader for any cut.
- `ChatService.ChatService.ReadBodyBuffered`: at the end of the stream, an unfinished last line left in the buffer is not handled.
- `ChatController.StreamChat`: a failure while writing or flushing a frame is not modelled; every write succeeds. Nor is the use of the cancelled token by the writes inside the catch clauses.
- The token's effect on `SendAsync`, `IsHealthyAsync` and the reads is modelled only through what the reply and the probe report. A token set before the probe is not modelled.
- The C# compiler rejects `yield return` inside a `try` that has `catch` clauses. The producer is modelled as evidently intended: its exceptions are classified by the two catch clauses.
- The line endings of the C# verbatim template strings are taken as line feeds.
- The text of the `Error`s that `streamWithFetch` throws (status, missing body) is not modelled: the user only ever sees the apology.
- `streamChatResponse` creates an `EventSource` that is never used. `SendMessage` is modelled as calling `streamWithFetch` directly, and the extra connection attempt is not modelled.
- The service constructor's `checkHealth` call is the separate method `CheckHealth`; the HTTP answer is its parameter. `getTemplates` is the `answer` parameter of `LoadTemplates`, and the server side of it is `GetAvailableTemplates`. `getMessages` is a plain read of `messages`.
- Concurrency is not modelled: two overlapping sends, and the timing of the flag updates. The component's `SendMessage` takes the service's streaming flag as an input.
- The persistence layer (database context, entities) is not modelled: the health endpoint takes only whether a database context is present.
- Rendering is not modelled: `formatMessage`, scrolling, the text area's resizing and the subscriptions of `ngOnInit`/`ngOnDestroy`. Nor is the disabling of the text box and the send button while an answer streams.

## Findings

| source | as written | input that shows it | evidently intended | confidence | as-written member | corrected member |
|---|---|---|---|---|---|---|
| DevAssistant.Api/Controllers/ChatController.cs:145 | `JsonSerializer.Serialize` with default options writes the property names `Type` and `Data`. The client switches on `sseEvent.type`, so no event is recognised | any session, e.g. `start`, `chunk("hi")`, `complete`: the answer stays empty and streaming | write the camel-case names `type` and `data` that the client and the wire format use | high, not executed | Session.SerializedSessionLost | Session.CamelCaseSessionShown |
| DevAssistant.Frontend/src/app/components/chat.component.ts:160 | the guard reads `.value` of an observable made by `asObservable()`, which has no such member. TypeScript rejects the access (TS2339); in the emitted code it is `undefined`, so the streaming test is dead | `sendMessage()` called with `hi` while the service streams is let through. The template disables the text box and the send button while streaming, so the user cannot reach this state through them | test the service's current streaming flag | medium, not executed | ChatComponent.GuardIgnoresStreamingAsWritten | ChatComponent.GuardBlocks |
| DevAssistant.Frontend/src/app/services/chat.service.ts:104-105 | each delivery is split into lines on its own, so a line cut across two deliveries is handled as two broken pieces | the deliveries `da` and `ta: {"type":"chunk","data":"x"}` followed by two line feeds: the chunk is lost | carry the unfinished last line of a delivery over to the next | high, not executed | ChatService.SplitFrameLostAsWritten | ChatService.DeliveryBoundariesIrrelevant |

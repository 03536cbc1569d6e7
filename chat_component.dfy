/**
 * The Angular chat component: the input box and template selector, the guard in
 * front of sending, the request it builds, the Enter key, and the template list
 * with its fallback and its name lookup. Rendering, scrolling and the markdown
 * formatting of messages are not modelled.
 */
module ChatComponent {
  import opened Base
  import opened Events
  import opened ChatService

  /** The model every request of the component names. */
  const RequestModel := "mistral"

  /** The three templates shown when the template list cannot be loaded. */
  function FallbackTemplates(): (ts: seq<PromptTemplate>)
    ensures Keys(ts) == ["error-explain", "refactor", "sql-helper"]
  {
    [
      PromptTemplate("error-explain", "Error Explainer", "Analyze and explain errors"),
      PromptTemplate("refactor", "Code Refactoring", "Improve code quality"),
      PromptTemplate("sql-helper", "SQL Helper", "Database and SQL assistance")
    ]
  }

  /** `templates.find(t => t.key === key)`: the position of the first template with the key. */
  function Find(ts: seq<PromptTemplate>, key: string): (i: Option<nat>)
    ensures i.Some? ==> i.value < |ts| && ts[i.value].key == key
    ensures i.Some? ==> forall j :: 0 <= j < i.value ==> ts[j].key != key
    ensures i.None? <==> key !in Keys(ts)
  {
    if ts == [] then None
    else if ts[0].key == key then Some(0)
    else match Find(ts[1..], key)
      case None => None
      case Some(j) => Some(j + 1)
  }

  /**
   * `getTemplateName`: the name of the first template with the key, or the key
   * itself when no template has it or that template's name is empty.
   */
  function TemplateName(ts: seq<PromptTemplate>, key: string): (name: string)
    ensures key !in Keys(ts) ==> name == key
    ensures forall i :: 0 <= i < |ts| && ts[i].key == key && (forall j :: 0 <= j < i ==> ts[j].key != key) ==>
      name == (if ts[i].name != "" then ts[i].name else key)
  {
    match Find(ts, key)
    case None => key
    case Some(i) => if ts[i].name != "" then ts[i].name else key
  }

  /** The guard of `sendMessage`, as intended: the input is not blank and no answer is streaming. */
  predicate Sends(input: string, streaming: bool) {
    Trim(input) != "" && !streaming
  }

  /**
   * The guard as written: it reads `.value` off the observable of the streaming
   * flag, which has no such member, so the streaming check is always falsy.
   */
  predicate SendsAsWritten(input: string, streaming: bool) {
    Trim(input) != ""
  }

  /** The request `sendMessage` builds: the trimmed input, the template unless none is selected, and the fixed model. */
  function RequestFor(input: string, selected: string): (request: ChatRequest)
    ensures request.userInput == Trim(input)
    ensures request.template.None? <==> selected == ""
    ensures request.template.Some? ==> request.template.value == selected
    ensures request.model == Some(RequestModel)
  {
    ChatRequest(Trim(input), if selected == "" then None else Some(selected), Some(RequestModel))
  }

  class ChatComponent {
    var userInput: string
    var selectedTemplate: string
    var templates: seq<PromptTemplate>
    const service: ChatService

    /** A new component has an empty input, no template selected and no templates. */
    constructor(service: ChatService)
      ensures this.service == service
      ensures userInput == "" && selectedTemplate == "" && templates == []
    {
      this.service := service;
      userInput := "";
      selectedTemplate := "";
      templates := [];
    }

    /**
     * `sendMessage`, with the streaming flag as the value the service holds when it
     * is called: a blank input or a running answer leaves everything as it was;
     * otherwise the input and the selection are cleared and the service sends the
     * request built from them.
     */
    method SendMessage(streaming: bool, userId: string, assistantId: string, f: FetchResult, parse: Parser)
      modifies this, service
      ensures templates == old(templates) && service.isConnected == old(service.isConnected)
      ensures !Sends(old(userInput), streaming) ==>
        (userInput == old(userInput) && selectedTemplate == old(selectedTemplate)
         && service.messages == old(service.messages) && service.isStreaming == old(service.isStreaming))
      ensures Sends(old(userInput), streaming) ==>
        (userInput == "" && selectedTemplate == "" && !service.isStreaming
         && service.messages == UpdateAll(old(service.messages)
           + [UserMessage(userId, RequestFor(old(userInput), old(selectedTemplate))), Placeholder(assistantId)],
           assistantId, SendUpdate(f, parse)))
    {
      if Trim(userInput) == "" || streaming {
        return;
      }
      var request := RequestFor(userInput, selectedTemplate);
      Submit(request, userId, assistantId, f, parse);
    }

    /** The part of `sendMessage` after the guard: the input and the selection are cleared, then the service sends. */
    method Submit(request: ChatRequest, userId: string, assistantId: string, f: FetchResult, parse: Parser)
      modifies this, service
      ensures templates == old(templates) && service.isConnected == old(service.isConnected)
      ensures userInput == "" && selectedTemplate == "" && !service.isStreaming
      ensures service.messages == UpdateAll(old(service.messages) + [UserMessage(userId, request), Placeholder(assistantId)],
        assistantId, SendUpdate(f, parse))
    {
      userInput := "";
      selectedTemplate := "";
      service.SendMessage(request, userId, assistantId, f, parse);
    }

    /** `onEnterKey`: Shift+Enter is left to the text box; a plain Enter is taken over and sends. */
    method OnEnterKey(shift: bool, streaming: bool, userId: string, assistantId: string, f: FetchResult, parse: Parser)
      returns (preventDefault: bool)
      modifies this, service
      ensures preventDefault == !shift
      ensures templates == old(templates) && service.isConnected == old(service.isConnected)
      ensures shift || !Sends(old(userInput), streaming) ==>
        (userInput == old(userInput) && selectedTemplate == old(selectedTemplate)
         && service.messages == old(service.messages) && service.isStreaming == old(service.isStreaming))
      ensures !shift && Sends(old(userInput), streaming) ==>
        (userInput == "" && selectedTemplate == "" && !service.isStreaming
         && service.messages == UpdateAll(old(service.messages)
           + [UserMessage(userId, RequestFor(old(userInput), old(selectedTemplate))), Placeholder(assistantId)],
           assistantId, SendUpdate(f, parse)))
    {
      if shift {
        return false;
      }
      preventDefault := true;
      SendMessage(streaming, userId, assistantId, f, parse);
    }

    /** `loadTemplates` once the request settles: the templates received, or the fallback list on an error. */
    method LoadTemplates(answer: Option<seq<PromptTemplate>>)
      modifies this
      ensures templates == (if answer.Some? then answer.value else FallbackTemplates())
      ensures userInput == old(userInput) && selectedTemplate == old(selectedTemplate)
    {
      match answer {
        case Some(ts) => templates := ts;
        case None => templates := FallbackTemplates();
      }
    }

    method SubmitFeedback(id: string, feedback: FeedbackType)
      modifies service
      ensures service.messages == UpdateAll(old(service.messages), id, MessageUpdate(None, None, Some(feedback)))
      ensures service.isConnected == old(service.isConnected) && service.isStreaming == old(service.isStreaming)
    {
      service.SubmitFeedback(id, feedback);
    }

    method ClearChat()
      modifies service
      ensures service.messages == []
      ensures service.isConnected == old(service.isConnected) && service.isStreaming == old(service.isStreaming)
    {
      service.ClearMessages();
    }

    /** `getTemplateName` over the templates loaded so far. */
    function GetTemplateName(key: string): (name: string)
      reads this
      ensures key !in Keys(templates) ==> name == key
      ensures forall i :: 0 <= i < |templates| && templates[i].key == key && (forall j :: 0 <= j < i ==> templates[j].key != key) ==>
        name == (if templates[i].name != "" then templates[i].name else key)
    {
      TemplateName(templates, key)
    }
  }

  /** As written, the guard lets a second request through while an answer is still streaming. */
  lemma GuardIgnoresStreamingAsWritten(input: string)
    requires Trim(input) != ""
    ensures SendsAsWritten(input, true) && !Sends(input, true)
  {
  }

  /** The intended guard never sends while streaming and never sends a blank input; it sends everything else. */
  lemma GuardBlocks(input: string, streaming: bool)
    ensures Sends(input, streaming) <==> !AllJsSpace(input) && !streaming
    ensures Sends(input, streaming) ==> RequestFor(input, "").userInput != ""
  {
  }

  /** The fallback list does not offer the general template, so its name is looked up as the key itself. */
  lemma FallbackHasNoGeneral()
    ensures TemplateName(FallbackTemplates(), "general") == "general"
    ensures TemplateName(FallbackTemplates(), "refactor") == "Code Refactoring"
  {
    var ts := FallbackTemplates();
    assert Keys(ts) == ["error-explain", "refactor", "sql-helper"];
    assert ts[0].key != "refactor";
  }
}

/**
 * The chat page's session controller (src/components/pages/chat.rs).
 *
 * The page keeps eight state cells: the connection (`api_url`,
 * `available_models`, `selected_model`, `is_connecting`,
 * `connection_error`) and the conversation (`messages`, `input_value`,
 * `is_loading`). `ChatSession` holds them as fields, and each event the page
 * reacts to is one method: the start and the end of a model discovery, a URL
 * edit, a model choice, a keystroke, a submit and the end of a chat request.
 * Each asynchronous task is split into its start and its end, so every
 * method is one atomic step.
 *
 * Two snapshots are explicit parameters. A state handle captured by a closure
 * keeps the value it had when the page was rendered. So the discovery task
 * reads the selected model from the render that scheduled it
 * (`DiscoveryTask.selectionSnapshot`). The chat task appends its reply to the
 * history from the render before the submit (`PendingChat.renderedHistory`).
 */
module Chat {
  import opened Wrappers
  import opened Http

  datatype Message = Message(role: string, content: string)

  /** The body of a chat-completion request. */
  datatype ChatRequest = ChatRequest(model: string, messages: seq<Message>, stream: bool)

  /** The decoded body of a chat-completion response. */
  datatype ChatResponse = ChatResponse(message: Message)

  /** One entry of the model listing. */
  datatype ModelInfo = ModelInfo(name: string)

  /** The decoded body of the model listing. */
  datatype TagsResponse = TagsResponse(models: seq<ModelInfo>)

  const DefaultApiUrl: string := "http://localhost:11434"

  function UserMessage(text: string): Message {
    Message("user", text)
  }

  /** A message the page makes up itself to report a failed request. */
  function SystemMessage(text: string): Message {
    Message("system", text)
  }

  // ---------------------------------------------------------------------
  // Model discovery
  // ---------------------------------------------------------------------

  /**
   * A discovery scheduled by the URL effect: the URL it queries, and the
   * selected model as the scheduling render saw it.
   */
  datatype DiscoveryTask = DiscoveryTask(url: string, selectionSnapshot: string)

  /** The model names of a listing, in response order. */
  function ModelNames(models: seq<ModelInfo>): (names: seq<string>)
    ensures |names| == |models|
    ensures forall i :: 0 <= i < |models| ==> names[i] == models[i].name
  {
    if models == [] then [] else [models[0].name] + ModelNames(models[1..])
  }

  /**
   * The selection after a listing `names` arrives. `current` is the
   * selection now and `snapshot` the one the discovery task read.
   */
  function ReconciledSelection(snapshot: string, current: string, names: seq<string>): (r: string)
    // an empty listing never touches the selection
    ensures names == [] ==> r == current
    // a usable remembered selection is kept
    ensures snapshot != "" && snapshot in names ==> r == current
    // an empty or vanished remembered selection moves to the first model
    ensures names != [] && (snapshot == "" || snapshot !in names) ==> r == names[0]
    // the cross-field rule, when nobody changed the selection meanwhile
    ensures names != [] && snapshot == current ==> r in names
  {
    if names != [] && (snapshot == "" || snapshot !in names) then names[0] else current
  }

  /** The catalog/selection rule: a non-empty catalog contains the selection. */
  predicate SelectionInCatalog(models: seq<string>, selected: string) {
    models != [] ==> selected in models
  }

  /** The connection error text set for each failed discovery. */
  function DiscoveryErrorText(o: Outcome<TagsResponse>): (text: string)
    requires !o.Delivered?
    ensures text != ""
  {
    match o
    case TransportError(d) => "Connection Failed: " + d
    case StatusError(code) => StatusErrorText(code)
    case ParseError(d) => "Failed to parse models: " + d
  }

  /** The error text tells the failure class and its detail apart. */
  lemma DiscoveryErrorTextIdentifiesOutcome(o1: Outcome<TagsResponse>, o2: Outcome<TagsResponse>)
    requires !o1.Delivered? && !o2.Delivered?
    requires DiscoveryErrorText(o1) == DiscoveryErrorText(o2)
    ensures o1 == o2
  {
    var t := DiscoveryErrorText(o1);
    // the three prefixes already differ in their first character
    assert o1.TransportError? ==> t[0] == 'C';
    assert o1.StatusError? ==> t[0] == 'A';
    assert o1.ParseError? ==> t[0] == 'F';
    assert o2.TransportError? ==> t[0] == 'C';
    assert o2.StatusError? ==> t[0] == 'A';
    assert o2.ParseError? ==> t[0] == 'F';
    match o1
    case TransportError(d1) =>
      assert d1 == t[19..];
      assert o2.detail == t[19..];
    case ParseError(d1) =>
      assert d1 == t[24..];
      assert o2.detail == t[24..];
    case StatusError(c1) =>
      assert DigitsValue(t[11..]) == c1 as int;
  }

  /** The status line of the page header. */
  datatype ConnectionStatus = Connecting | Connected | Failed(message: string)

  /** The status line: an error wins over connecting, which wins over connected. */
  function DisplayStatus(connectionError: string, isConnecting: bool): (s: ConnectionStatus)
    ensures s.Failed? <==> connectionError != ""
    ensures s.Failed? ==> s.message == connectionError
    ensures s == Connecting <==> connectionError == "" && isConnecting
    ensures s == Connected <==> connectionError == "" && !isConnecting
  {
    if connectionError != "" then Failed(connectionError)
    else if isConnecting then Connecting
    else Connected
  }

  /**
   * The cross-field rule needs the snapshot to be the current selection. If
   * the user picks another model while the listing is in flight, the task
   * still decides on the selection it read when it was scheduled, and the
   * new choice can stay outside the new catalog.
   */
  lemma StaleSnapshotCanLeaveSelectionOutsideCatalog()
    ensures ReconciledSelection("a", "z", ["a", "b"]) == "z"
    ensures !SelectionInCatalog(["a", "b"], "z")
  {
    assert "a" in ["a", "b"];
  }

  // ---------------------------------------------------------------------
  // Conversation
  // ---------------------------------------------------------------------

  /** The submit guard: both the typed text and the selected model are non-empty. */
  predicate SubmitAccepted(input: string, selected: string) {
    input != "" && selected != ""
  }

  /** The text field is disabled while a reply is awaited or when there is no model. */
  predicate InputDisabled(isLoading: bool, models: seq<string>) {
    isLoading || models == []
  }

  /** The send button is also disabled while the text field is empty. */
  predicate SendDisabled(isLoading: bool, input: string, models: seq<string>) {
    isLoading || input == "" || models == []
  }

  /**
   * An enabled send button implies an enabled text field, and, while the
   * catalog rule holds and no model is named "", a submit the guard accepts.
   */
  lemma EnabledSendPassesGuard(isLoading: bool, input: string, models: seq<string>, selected: string)
    requires !SendDisabled(isLoading, input, models)
    requires SelectionInCatalog(models, selected) && "" !in models
    ensures !InputDisabled(isLoading, models)
    ensures SubmitAccepted(input, selected)
  {
  }

  /** The system message text for each failed chat request. */
  function ChatErrorText(o: Outcome<ChatResponse>): (text: string)
    requires !o.Delivered?
    ensures text != ""
  {
    match o
    case TransportError(d) => "Network Error: " + d
    case StatusError(code) => StatusErrorText(code)
    case ParseError(d) => "Error parsing response: " + d
  }

  /** The one message a finished chat request adds to the history. */
  function ChatReply(o: Outcome<ChatResponse>): (m: Message)
    ensures o.Delivered? ==> m == o.value.message
    ensures !o.Delivered? ==> m.role == "system" && m.content == ChatErrorText(o)
  {
    if o.Delivered? then o.value.message else SystemMessage(ChatErrorText(o))
  }

  /** A failed chat request reports itself with its own text, never with another's. */
  lemma ChatErrorTextIdentifiesOutcome(o1: Outcome<ChatResponse>, o2: Outcome<ChatResponse>)
    requires !o1.Delivered? && !o2.Delivered?
    requires ChatReply(o1) == ChatReply(o2)
    ensures o1 == o2
  {
    var t := ChatErrorText(o1);
    assert o1.TransportError? ==> t[0] == 'N';
    assert o1.StatusError? ==> t[0] == 'A';
    assert o1.ParseError? ==> t[0] == 'E';
    assert o2.TransportError? ==> t[0] == 'N';
    assert o2.StatusError? ==> t[0] == 'A';
    assert o2.ParseError? ==> t[0] == 'E';
    match o1
    case TransportError(d1) =>
      assert d1 == t[15..];
      assert o2.detail == t[15..];
    case ParseError(d1) =>
      assert d1 == t[24..];
      assert o2.detail == t[24..];
    case StatusError(c1) =>
      assert DigitsValue(t[11..]) == c1 as int;
  }

  /**
   * A submitted request still waiting for its reply: the request body, and
   * the history the page had rendered before the submit.
   */
  datatype PendingChat = PendingChat(request: ChatRequest, renderedHistory: seq<Message>)

  // ---------------------------------------------------------------------
  // The page state
  // ---------------------------------------------------------------------

  datatype ConnectionState = ConnectionState(
    apiUrl: string,
    availableModels: seq<string>,
    selectedModel: string,
    isConnecting: bool,
    connectionError: string)

  datatype ConversationState = ConversationState(
    messages: seq<Message>,
    inputValue: string,
    isLoading: bool)

  class ChatSession {
    var apiUrl: string
    var availableModels: seq<string>
    var selectedModel: string
    var isConnecting: bool
    var connectionError: string

    var messages: seq<Message>
    var inputValue: string
    var isLoading: bool

    function Connection(): ConnectionState
      reads this
    {
      ConnectionState(apiUrl, availableModels, selectedModel, isConnecting, connectionError)
    }

    function Conversation(): ConversationState
      reads this
    {
      ConversationState(messages, inputValue, isLoading)
    }

    /** The header's status line for the current state. */
    function Status(): ConnectionStatus
      reads this
    {
      DisplayStatus(connectionError, isConnecting)
    }

    /** The state cells as the page creates them at mount. */
    constructor ()
      ensures Connection() == ConnectionState(DefaultApiUrl, [], "", false, "")
      ensures Conversation() == ConversationState([], "", false)
    {
      apiUrl := DefaultApiUrl;
      availableModels := [];
      selectedModel := "";
      isConnecting := false;
      connectionError := "";
      messages := [];
      inputValue := "";
      isLoading := false;
    }

    /** The URL effect's first run, at mount: it schedules a discovery of the current URL. */
    method InitialDiscovery() returns (task: DiscoveryTask)
      ensures task.url == apiUrl && task.selectionSnapshot == selectedModel
    {
      task := DiscoveryTask(apiUrl, selectedModel);
    }

    /**
     * An edit of the URL field. The effect keyed on the URL schedules a new
     * discovery only when the value differs from the previous one.
     */
    method SetUrl(url: string) returns (task: Option<DiscoveryTask>)
      modifies this
      ensures Connection() == old(Connection()).(apiUrl := url)
      ensures Conversation() == old(Conversation())
      ensures task.Some? <==> url != old(apiUrl)
      ensures task.Some? ==> task.value == DiscoveryTask(url, selectedModel)
    {
      var changed := url != apiUrl;
      apiUrl := url;
      if changed {
        task := Some(DiscoveryTask(url, selectedModel));
      } else {
        task := None;
      }
    }

    /** A discovery task starts: connecting, and the previous error cleared. */
    method StartDiscovery()
      modifies this
      ensures Connection() == old(Connection()).(isConnecting := true, connectionError := "")
      ensures Conversation() == old(Conversation())
      ensures Status() == Connecting
    {
      isConnecting := true;
      connectionError := "";
    }

    /**
     * A discovery task ends with `response`. A listing replaces the catalog
     * and reconciles the selection; each failure empties the catalog and
     * sets its error text; every branch ends the connecting phase.
     */
    method FinishDiscovery(task: DiscoveryTask, response: Fetch<TagsResponse>)
      modifies this
      ensures apiUrl == old(apiUrl) && !isConnecting
      ensures Conversation() == old(Conversation())
      ensures Classify(response).Delivered? ==>
        && availableModels == ModelNames(Classify(response).value.models)
        && selectedModel == ReconciledSelection(task.selectionSnapshot, old(selectedModel), availableModels)
        && connectionError == old(connectionError)
      ensures Classify(response).Delivered? && old(connectionError) == "" ==> Status() == Connected
      ensures !Classify(response).Delivered? ==>
        && availableModels == []
        && selectedModel == old(selectedModel)
        && connectionError == DiscoveryErrorText(Classify(response))
        && Status() == Failed(connectionError)
      ensures task.selectionSnapshot == old(selectedModel) ==> SelectionInCatalog(availableModels, selectedModel)
    {
      match response {
        case Responded(code, body) =>
          if IsSuccess(code) {
            match body {
              case Parsed(data) =>
                var names := ModelNames(data.models);
                if names != [] {
                  if task.selectionSnapshot == "" || task.selectionSnapshot !in names {
                    selectedModel := names[0];
                  }
                }
                availableModels := names;
              case Malformed(e) =>
                connectionError := DiscoveryErrorText(ParseError(e));
                availableModels := [];
            }
          } else {
            connectionError := DiscoveryErrorText(StatusError(code));
            availableModels := [];
          }
        case TransportFailed(e) =>
          connectionError := DiscoveryErrorText(TransportError(e));
          availableModels := [];
      }
      isConnecting := false;
    }

    /** A choice in the model drop-down, taken without any check. */
    method SelectModel(name: string)
      modifies this
      ensures Connection() == old(Connection()).(selectedModel := name)
      ensures Conversation() == old(Conversation())
    {
      selectedModel := name;
    }

    /** An edit of the message field. */
    method SetInput(text: string)
      modifies this
      ensures Conversation() == old(Conversation()).(inputValue := text)
      ensures Connection() == old(Connection())
    {
      inputValue := text;
    }

    /**
     * A submit of the message form. With an empty input or no selected model
     * nothing happens. Otherwise the user message is appended, the input is
     * cleared, the page waits for a reply, and a request carrying the model
     * and the whole updated history is sent.
     */
    method Submit() returns (pending: Option<PendingChat>)
      modifies this
      ensures Connection() == old(Connection())
      ensures pending.Some? <==> SubmitAccepted(old(inputValue), selectedModel)
      ensures pending.None? ==> Conversation() == old(Conversation())
      ensures pending.Some? ==>
        && messages == old(messages) + [UserMessage(old(inputValue))]
        && inputValue == ""
        && isLoading
        && pending.value.request == ChatRequest(selectedModel, messages, false)
        && pending.value.renderedHistory == old(messages)
    {
      if inputValue == "" || selectedModel == "" {
        return None;
      }
      var userMsg := UserMessage(inputValue);
      var rendered := messages;
      var newMessages := messages + [userMsg];
      messages := newMessages;
      inputValue := "";
      isLoading := true;
      pending := Some(PendingChat(ChatRequest(selectedModel, newMessages, false), rendered));
    }

    /**
     * A chat task ends with `response`: exactly one message, the reply or a
     * system error message, is appended to `base`, and the wait ends.
     */
    method FinishChat(base: seq<Message>, response: Fetch<ChatResponse>)
      modifies this
      ensures messages == base + [ChatReply(Classify(response))]
      ensures inputValue == old(inputValue) && !isLoading
      ensures Connection() == old(Connection())
    {
      var current := base;
      match response {
        case Responded(code, body) =>
          if IsSuccess(code) {
            match body {
              case Parsed(data) =>
                current := current + [data.message];
              case Malformed(e) =>
                current := current + [SystemMessage(ChatErrorText(ParseError(e)))];
            }
          } else {
            current := current + [SystemMessage(ChatErrorText(StatusError(code)))];
          }
        case TransportFailed(e) =>
          current := current + [SystemMessage(ChatErrorText(TransportError(e)))];
      }
      messages := current;
      isLoading := false;
    }

    /**
     * A chat task ending as evidently intended: the reply goes after the
     * history the request carried, which ends with the user message.
     */
    method CompleteChat(pending: PendingChat, response: Fetch<ChatResponse>)
      modifies this
      ensures messages == pending.request.messages + [ChatReply(Classify(response))]
      ensures inputValue == old(inputValue) && !isLoading
      ensures Connection() == old(Connection())
    {
      FinishChat(pending.request.messages, response);
    }

    /**
     * A submit followed by its reply the way the page does it, appending the
     * reply to the history rendered before the submit: an accepted submit
     * leaves one message more than before, the reply in place of the user's.
     */
    method SubmitAndFinishAsWritten(response: Fetch<ChatResponse>)
      modifies this
      ensures Connection() == old(Connection())
      ensures !SubmitAccepted(old(inputValue), selectedModel) ==> Conversation() == old(Conversation())
      ensures SubmitAccepted(old(inputValue), selectedModel) ==>
        && messages == old(messages) + [ChatReply(Classify(response))]
        && inputValue == "" && !isLoading
    {
      var pending := Submit();
      if pending.Some? {
        FinishChat(pending.value.renderedHistory, response);
      }
    }

    /**
     * A submit followed by its reply, with nothing in between: an accepted
     * submit adds exactly two messages, the user's and then the reply.
     */
    method SubmitAndComplete(response: Fetch<ChatResponse>)
      modifies this
      ensures Connection() == old(Connection())
      ensures !SubmitAccepted(old(inputValue), selectedModel) ==> Conversation() == old(Conversation())
      ensures SubmitAccepted(old(inputValue), selectedModel) ==>
        && messages == old(messages) + [UserMessage(old(inputValue)), ChatReply(Classify(response))]
        && inputValue == "" && !isLoading
    {
      var pending := Submit();
      if pending.Some? {
        CompleteChat(pending.value, response);
      }
    }
  }

  // ---------------------------------------------------------------------
  // Example sessions
  // ---------------------------------------------------------------------

  /** A listing of "a" and "b" from a fresh page: both are offered and "a" is selected. */
  method ListingScenario() returns (catalog: seq<string>, selection: string, status: ConnectionStatus)
    ensures catalog == ["a", "b"] && selection == "a" && status == Connected
  {
    var s := new ChatSession();
    var task := s.SetUrl("http://x");
    s.StartDiscovery();
    s.FinishDiscovery(task.value, Responded(200, Parsed(TagsResponse([ModelInfo("a"), ModelInfo("b")]))));
    catalog, selection, status := s.availableModels, s.selectedModel, s.Status();
  }

  /**
   * A refused connection after a listing of "a": the catalog empties and the
   * error shows, while the selection stays "a".
   */
  method RefusedScenario() returns (catalog: seq<string>, selection: string, status: ConnectionStatus)
    ensures catalog == [] && selection == "a" && status == Failed("Connection Failed: refused")
  {
    var s := new ChatSession();
    var task := s.InitialDiscovery();
    s.StartDiscovery();
    s.FinishDiscovery(task, Responded(200, Parsed(TagsResponse([ModelInfo("a")]))));
    var next := s.SetUrl("http://y");
    s.StartDiscovery();
    s.FinishDiscovery(next.value, TransportFailed("refused"));
    catalog, selection, status := s.availableModels, s.selectedModel, s.Status();
  }

  /**
   * "hi" sent to model "a" and answered "hello", with the reply appended the
   * way the page does it, to the history rendered before the submit: the
   * user's message is shown, then replaced by the reply.
   */
  method ReplyScenarioAsWritten() returns (afterSubmit: seq<Message>, afterReply: seq<Message>)
    ensures afterSubmit == [UserMessage("hi")]
    ensures afterReply == [Message("assistant", "hello")]
  {
    var s := new ChatSession();
    s.SelectModel("a");
    s.SetInput("hi");
    var pending := s.Submit();
    afterSubmit := s.messages;
    s.FinishChat(pending.value.renderedHistory, Responded(200, Parsed(ChatResponse(Message("assistant", "hello")))));
    afterReply := s.messages;
  }

  /** The same exchange completed as intended: both messages stay, and the wait ends. */
  method ReplyScenario() returns (history: seq<Message>, loading: bool)
    ensures history == [UserMessage("hi"), Message("assistant", "hello")] && !loading
  {
    var s := new ChatSession();
    s.SelectModel("a");
    s.SetInput("hi");
    var pending := s.Submit();
    s.CompleteChat(pending.value, Responded(200, Parsed(ChatResponse(Message("assistant", "hello")))));
    history, loading := s.messages, s.isLoading;
  }

  /** The same exchange answered with status 500: a system message reports it. */
  method ServerErrorScenario() returns (history: seq<Message>, loading: bool)
    ensures history == [UserMessage("hi"), SystemMessage("API Error: 500")] && !loading
  {
    var s := new ChatSession();
    s.SelectModel("a");
    s.SetInput("hi");
    var pending := s.Submit();
    s.CompleteChat(pending.value, Responded(500, Malformed("not read")));
    assert Decimal(5) == "5";
    assert Decimal(50) == "50";
    assert Decimal(500) == "500";
    assert ChatErrorText(StatusError(500)) == "API Error: 500";
    history, loading := s.messages, s.isLoading;
  }
}

/**
 * The chat endpoint (`/api/pulse-chat`): checks the request, turns the
 * conversation into backend history plus a new input, opens a chat session
 * and answers with one text or with a stream of events.
 */
module PulseChat {
  import opened Common
  import opened Strings
  import opened Json
  import opened Http

  const ModelName := "gemini-3-pro-preview"

  const SystemPrompt: string :=
    "\nYou are Pulse, the proprietary intelligence of the GymMate ecosystem.\n\n"
    + "CORE DIRECTIVES:\n"
    + "1. QUANTITATIVE PRECISION: When discussing calories or macros, provide clear estimates with assumptions.\n"
    + "2. PERSONALIZED COACHING: Be supportive and practical. Focus on habits, safety, and sustainable progress.\n"
    + "3. IDENTITY: You are Pulse. Never mention Google, Gemini, or being an AI model.\n"

  const NotAllowedMessage := "Method not allowed"
  const MissingKeyMessage := "Missing API Key in environment variables"
  const MissingMessagesMessage := "Missing messages array"
  const EmptyContentMessage := "Last message content is empty"
  const UnavailableMessage := "Pulse is temporarily unavailable."
  /** What V8 throws when the history mapping reads `role` of a `null` entry. */
  const NullEntryMessage := "Cannot read properties of null (reading 'role')"

  /** The backend's two roles: `user` and `model`. */
  datatype Role = User | Model

  /** A history turn as the backend takes it: `{ role, parts: [{ text }] }`. */
  datatype Turn = Turn(role: Role, text: string)

  /**
   * One element of the `messages` array: an object with a role and a
   * content (an absent content is ""), or `null`.
   */
  datatype Entry = Null | Message(role: string, content: string)

  /**
   * The parts of a request the handler reads. `messages` is `None` when the
   * body has no `messages` array; `stream` is the truthiness of `stream`.
   */
  datatype ChatRequest = ChatRequest(httpMethod: string, messages: Option<seq<Entry>>, stream: bool)

  /** A chat session opened with `startChat`. */
  datatype Session = Session(model: string, systemInstruction: string, history: seq<Turn>)

  /** What a streamed send produced: chunks in order, then possibly the failure that ended it. */
  datatype StreamReply = StreamReply(chunks: seq<string>, failure: Option<string>)

  /** The backend chat session: `sendMessage` and `sendMessageStream`. */
  datatype Backend = Backend(
    send: (Session, string) -> Reply,
    sendStream: (Session, string) -> StreamReply)

  /** Either an immediate response, or a session to open and the input to send to it. */
  datatype Plan = Respond(response: Response) | Forward(session: Session, input: string, stream: bool)

  /** `assistant` becomes `model`; every other role becomes `user`. */
  function BackendRole(role: string): (r: Role)
    ensures r == Model <==> role == "assistant"
  {
    if role == "assistant" then Model else User
  }

  /** Every entry as a backend turn, or `None` when mapping reaches a `null` entry and throws. */
  function ToHistory(entries: seq<Entry>): (h: Option<seq<Turn>>)
    ensures h.None? <==> exists k :: 0 <= k < |entries| && entries[k].Null?
    ensures h.Some? ==> |h.value| == |entries|
    ensures h.Some? ==> forall k :: 0 <= k < |entries| ==>
      h.value[k] == Turn(BackendRole(entries[k].role), entries[k].content)
  {
    if |entries| == 0 then Some([])
    else if entries[0].Null? then None
    else
      match ToHistory(entries[1..])
      case None => None
      case Some(rest) => Some([Turn(BackendRole(entries[0].role), entries[0].content)] + rest)
  }

  /** Drops the first turn when it is the model's; only that one, and only once. */
  function Sanitize(history: seq<Turn>): (clean: seq<Turn>)
    ensures |history| - 1 <= |clean| <= |history|
    ensures clean == history[|history| - |clean|..]
    ensures |clean| < |history| <==> |history| > 0 && history[0].role == Model
  {
    if |history| > 0 && history[0].role == Model then history[1..] else history
  }

  /** `lastMessageObj?.content || ""`. */
  function LastContent(last: Entry): string {
    match last
    case Null => ""
    case Message(_, content) => content
  }

  /**
   * The handler up to the point where it opens a chat session: it opens
   * one exactly when the request passes every check, with the last
   * message's content as input.
   */
  function Prepare(env: Env, req: ChatRequest): (plan: Plan)
    ensures plan.Forward? <==> Accepted(env, req)
    ensures plan.Forward? ==> plan.input == Last(req.messages.value).content && plan.stream == req.stream
    ensures plan.Respond? ==> plan.response.JsonReply? && plan.response.status != Success
  {
    if req.httpMethod != "POST" then Respond(ErrorReply(MethodNotAllowed, NotAllowedMessage))
    else if ApiKey(env) == "" then Respond(ErrorReply(ServerError, MissingKeyMessage))
    else if req.messages.None? || |req.messages.value| == 0 then
      Respond(ErrorReply(BadRequest, MissingMessagesMessage))
    else
      var messages := req.messages.value;
      assert forall k :: 0 <= k < |messages| - 1 ==> messages[..|messages| - 1][k] == messages[k];
      match ToHistory(messages[..|messages| - 1])
      case None => Respond(FailureReply(UnavailableMessage, NullEntryMessage))
      case Some(history) =>
        var input := LastContent(messages[|messages| - 1]);
        if input == "" then Respond(ErrorReply(BadRequest, EmptyContentMessage))
        else Forward(Session(ModelName, SystemPrompt, Sanitize(history)), input, req.stream)
  }

  function TextPayload(text: string): Json {
    JObject([("text", JString(text))])
  }

  const DonePayload: Json := JObject([("done", JBool(true))])

  /** One `data: {"text":…}` event per chunk, in order. */
  function TextEvents(chunks: seq<string>): seq<string> {
    seq(|chunks|, k requires 0 <= k < |chunks| => Event(TextPayload(chunks[k])))
  }

  /**
   * The streamed response. A failure before anything was written is still
   * answered with a 500; after the first write the stream is cut short
   * without its `done` event.
   */
  function StreamResponse(reply: StreamReply): (r: Response)
    ensures r.EventStream? <==> reply.failure.None? || |reply.chunks| > 0
    ensures r.EventStream? ==> (r.ended <==> reply.failure.None?)
    ensures r.EventStream? ==> |r.events| == |reply.chunks| + (if r.ended then 1 else 0)
    ensures r.EventStream? ==> forall k :: 0 <= k < |reply.chunks| ==> r.events[k] == Event(TextPayload(reply.chunks[k]))
    ensures r.EventStream? && r.ended ==> r.events[|reply.chunks|] == Event(DonePayload)
    ensures r.JsonReply? ==> r == FailureReply(UnavailableMessage, reply.failure.value)
  {
    if reply.failure.Some? && |reply.chunks| == 0 then
      FailureReply(UnavailableMessage, reply.failure.value)
    else if reply.failure.Some? then
      EventStream(TextEvents(reply.chunks), false)
    else
      EventStream(TextEvents(reply.chunks) + [Event(DonePayload)], true)
  }

  /**
   * The whole handler, given the backend. Nothing from the backend reaches
   * a request that fails a check, and only a request for a stream is
   * answered with one.
   */
  function Handle(env: Env, req: ChatRequest, backend: Backend): (r: Response)
    ensures !Accepted(env, req) ==> r == Prepare(env, req).response
    ensures r.Ok() ==> Accepted(env, req)
    ensures r.EventStream? ==> Accepted(env, req) && req.stream
  {
    match Prepare(env, req)
    case Respond(response) => response
    case Forward(session, input, stream) =>
      if stream then StreamResponse(backend.sendStream(session, input))
      else
        match backend.send(session, input)
        case Replied(text) => JsonReply(Success, JObject([("text", JString(text))]))
        case Failed(message) => FailureReply(UnavailableMessage, message)
  }

  /** The request passes every check the handler makes before opening a session. */
  predicate Accepted(env: Env, req: ChatRequest) {
    && req.httpMethod == "POST"
    && ApiKey(env) != ""
    && req.messages.Some?
    && |req.messages.value| > 0
    && (forall k :: 0 <= k < |req.messages.value| - 1 ==> req.messages.value[k].Message?)
    && req.messages.value[|req.messages.value| - 1].Message?
    && req.messages.value[|req.messages.value| - 1].content != ""
  }

  /**
   * The checks and their order: method, then credential, then the messages
   * array, then the history entries, then the last content. A session is
   * opened exactly when all of them pass.
   */
  lemma ValidationOrder(env: Env, req: ChatRequest, backend: Backend)
    ensures req.httpMethod != "POST" ==>
      Handle(env, req, backend) == ErrorReply(405, "Method not allowed")
    ensures req.httpMethod == "POST" && ApiKey(env) == "" ==>
      Handle(env, req, backend) == ErrorReply(500, "Missing API Key in environment variables")
    ensures req.httpMethod == "POST" && ApiKey(env) != "" && (req.messages.None? || req.messages.value == []) ==>
      Handle(env, req, backend) == ErrorReply(400, "Missing messages array")
    ensures (req.httpMethod == "POST" && ApiKey(env) != "" && req.messages.Some? && |req.messages.value| > 0
      && exists k :: 0 <= k < |req.messages.value| - 1 && req.messages.value[k].Null?) ==>
      Handle(env, req, backend) == FailureReply("Pulse is temporarily unavailable.", NullEntryMessage)
    ensures (req.httpMethod == "POST" && ApiKey(env) != "" && req.messages.Some? && |req.messages.value| > 0
      && (forall k :: 0 <= k < |req.messages.value| - 1 ==> req.messages.value[k].Message?)
      && LastContent(Last(req.messages.value)) == "") ==>
      Handle(env, req, backend) == ErrorReply(400, "Last message content is empty")
    ensures Prepare(env, req).Forward? <==> Accepted(env, req)
  {
    if req.httpMethod == "POST" && ApiKey(env) != "" && req.messages.Some? && req.messages.value != [] {
      var messages := req.messages.value;
      var head := messages[..|messages| - 1];
      assert forall k :: 0 <= k < |head| ==> head[k] == messages[k];
    }
  }

  /**
   * What reaches the backend: the history is every message but the last,
   * role-mapped and with a leading model turn dropped; the input is the
   * last message's content, whatever role it declares.
   */
  lemma ForwardedConversation(env: Env, req: ChatRequest)
    requires Accepted(env, req)
    ensures var messages := req.messages.value;
      var n := |messages|;
      var d := if n > 1 && messages[0].role == "assistant" then 1 else 0;
      && Prepare(env, req).Forward?
      && Prepare(env, req).input == messages[n - 1].content
      && Prepare(env, req).stream == req.stream
      && Prepare(env, req).session.model == ModelName
      && Prepare(env, req).session.systemInstruction == SystemPrompt
      && |Prepare(env, req).session.history| == n - 1 - d
      && forall k :: 0 <= k < n - 1 - d ==>
        Prepare(env, req).session.history[k] == Turn(BackendRole(messages[k + d].role), messages[k + d].content)
  {
    var messages := req.messages.value;
    var n := |messages|;
    var head := messages[..n - 1];
    assert forall k :: 0 <= k < |head| ==> head[k] == messages[k];
    var h := ToHistory(head).value;
    var clean := Sanitize(h);
    assert Prepare(env, req).session.history == clean;
    var d := if n > 1 && messages[0].role == "assistant" then 1 else 0;
    assert |h| - |clean| == d;
    forall k | 0 <= k < n - 1 - d
      ensures clean[k] == Turn(BackendRole(messages[k + d].role), messages[k + d].content)
    {
      assert clean[k] == h[k + d];
    }
  }

  /** The sanitised history is the original with at most its first turn removed, and that turn the model's. */
  lemma SanitizeDropsAtMostOne(history: seq<Turn>)
    ensures Sanitize(history) == history || (history[0].role == Model && Sanitize(history) == history[1..])
    ensures |history| > 0 && history[0].role == User ==> Sanitize(history) == history
    ensures |history| > 0 && history[0].role == Model ==> Sanitize(history) == history[1..]
  {
  }

  /** Sanitising is not repeated: two leading model turns leave one at the front. */
  lemma SanitizeIsNotRecursive(a: string, b: string)
    ensures Sanitize([Turn(Model, a), Turn(Model, b)]) == [Turn(Model, b)]
    ensures Sanitize(Sanitize([Turn(Model, a), Turn(Model, b)])) == []
  {
    assert [Turn(Model, a), Turn(Model, b)][1..] == [Turn(Model, b)];
  }

  /** The last content is not trimmed: a whitespace-only message opens a session. */
  lemma WhitespaceInputAccepted(env: Env)
    requires ApiKey(env) != ""
    ensures Prepare(env, ChatRequest("POST", Some([Message("user", " ")]), false)).Forward?
  {
  }

  /**
   * A `null` entry anywhere before the last message makes the handler
   * throw, answered with 500 whatever the last message is, and before any
   * session is opened.
   */
  lemma NullHistoryEntry(env: Env, before: seq<Entry>, after: seq<Entry>, last: Entry, backend: Backend)
    requires ApiKey(env) != ""
    ensures var req := ChatRequest("POST", Some(before + [Null] + after + [last]), true);
      && Prepare(env, req) == Respond(FailureReply(UnavailableMessage, NullEntryMessage))
      && Handle(env, req, backend) == FailureReply(UnavailableMessage, NullEntryMessage)
  {
    var messages := before + [Null] + after + [last];
    assert messages[..|messages| - 1] == before + [Null] + after;
    assert messages[..|messages| - 1][|before|].Null?;
  }

  /** A greeting followed by one question: the greeting is dropped and the history is empty. */
  lemma GreetingThenQuestion(env: Env)
    requires ApiKey(env) != ""
    ensures Prepare(env, ChatRequest("POST",
        Some([Message("assistant", "Hi!"), Message("user", "What's my calorie target?")]), false))
      == Forward(Session(ModelName, SystemPrompt, []), "What's my calorie target?", false)
  {
    var messages := [Message("assistant", "Hi!"), Message("user", "What's my calorie target?")];
    assert messages[..1] == [Message("assistant", "Hi!")];
  }

  /** The `done` event, spelled out. */
  lemma DoneEventText()
    ensures Event(DonePayload) == "data: {\"done\":true}\n\n"
  {
    var body := "{\"done\":true}";
    assert Serialize(DonePayload) == body by {
      DoneFieldsText();
    }
    assert DataPrefix + body + EventEnd == "data: {\"done\":true}\n\n";
  }

  lemma DoneFieldsText()
    ensures Serialize(DonePayload) == "{\"done\":true}"
  {
    assert Quote("done") == "\"done\"" by {
      assert Escape("") == "";
      assert Escape("e") == "e";
      assert Escape("ne") == "ne";
      assert Escape("one") == "one";
      assert Escape("done") == "done";
    }
    assert SerializeFields(DonePayload, [("done", JBool(true))]) == "\"done\":true";
  }

  /**
   * A stream that completes is one `data: {"text":…}` event per backend
   * chunk, in backend order, and then exactly one `data: {"done":true}`.
   */
  lemma StreamedEvents(env: Env, req: ChatRequest, backend: Backend)
    requires Accepted(env, req) && req.stream
    requires backend.sendStream(Prepare(env, req).session, Prepare(env, req).input).failure.None?
    ensures var chunks := backend.sendStream(Prepare(env, req).session, Prepare(env, req).input).chunks;
      && Handle(env, req, backend).EventStream?
      && Handle(env, req, backend).ended
      && |Handle(env, req, backend).events| == |chunks| + 1
      && (forall k :: 0 <= k < |chunks| ==>
        Handle(env, req, backend).events[k] == "data: " + Serialize(JObject([("text", JString(chunks[k]))])) + "\n\n")
      && Handle(env, req, backend).events[|chunks|] == "data: {\"done\":true}\n\n"
  {
    ForwardedConversation(env, req);
    DoneEventText();
    var plan := Prepare(env, req);
    var reply := backend.sendStream(plan.session, plan.input);
    assert Handle(env, req, backend) == EventStream(TextEvents(reply.chunks) + [Event(DonePayload)], true);
  }
}

/**
 * The Pulse chat page: a conversation that opens with a greeting; sending
 * appends the user's message and an empty assistant message, clears the
 * input, and fills the assistant message from the image analysis or from
 * the streamed chat chunks as they arrive.
 */
module PulsePage {
  import opened Common
  import opened Strings
  import opened Json
  import opened Http
  import opened StreamReader
  import opened GeminiClient
  import opened EndToEnd
  import PulseChat

  /** A message in the conversation; `image` is the preview of an attached photo. */
  datatype Message = Message(role: string, content: string, image: Option<string>)

  const Greeting := Message("assistant",
    "Hey! I'm Pulse, your AI fitness assistant. I can help you with workout plans, nutrition advice, and motivation. What can I help you with today?",
    None)

  const DefaultImagePrompt := "Analyze this image and tell me what you see related to fitness or nutrition."
  const ErrorText := "Sorry, I encountered an error. Please check your API key and try again."

  /**
   * The page state: the conversation, the text box, the attached image (as
   * the data URL it is read into) and its preview, and whether a reply is
   * on its way (the text box and the send button are disabled then).
   */
  datatype Page = Page(messages: seq<Message>, input: string, selected: Option<string>, preview: Option<string>, loading: bool)

  const Initial := Page([Greeting], "", None, None, false)

  /** `!input.trim() && !selectedImage`: the send is ignored. */
  predicate NothingToSend(page: Page) {
    Trim(page.input) == "" && page.selected.None?
  }

  /** The request a send makes: the image to analyse with its prompt, or the conversation so far. */
  datatype Call = Vision(image: string, prompt: string) | Chat(conversation: seq<Message>)

  function UserMessage(page: Page): Message {
    Message("user", Trim(page.input), page.preview)
  }

  /**
   * The synchronous part of `handleSend`: the page with the two new
   * messages, waiting for the reply, and the request to make, which goes
   * to the vision call exactly when an image is attached.
   */
  function Submit(page: Page): (r: (Page, Call))
    requires !NothingToSend(page)
    ensures |r.0.messages| == |page.messages| + 2 && r.0.messages[..|page.messages|] == page.messages
    ensures r.0.loading && r.0.input == "" && r.0.selected.None? && r.0.preview.None?
    ensures r.1.Vision? <==> page.selected.Some?
    ensures r.1.Chat? ==> r.1.conversation == r.0.messages[..|page.messages| + 1]
  {
    var user := UserMessage(page);
    var next := Page(page.messages + [user, Message("assistant", "", None)], "", None, None, true);
    var call :=
      if page.selected.Some? then Vision(page.selected.value, if user.content != "" then user.content else DefaultImagePrompt)
      else Chat(page.messages + [user]);
    (next, call)
  }

  /** The messages with the content of the last one replaced. */
  function SetLast(messages: seq<Message>, content: string): (r: seq<Message>)
    requires |messages| > 0
    ensures |r| == |messages|
    ensures r[..|r| - 1] == messages[..|messages| - 1]
    ensures r[|r| - 1].content == content
    ensures r[|r| - 1].role == messages[|messages| - 1].role && r[|r| - 1].image == messages[|messages| - 1].image
  {
    messages[..|messages| - 1] + [messages[|messages| - 1].(content := content)]
  }

  /** The conversation after the streamed chunks have all been added to the last message. */
  function Streamed(messages: seq<Message>, chunks: seq<string>): seq<Message>
    requires |messages| > 0
  {
    if |chunks| == 0 then messages else SetLast(messages, Concat(chunks))
  }

  /**
   * The `onChunk` callback, chunk by chunk: the running text grows by each
   * chunk and the last message is set to it every time.
   */
  method StreamInto(messages: seq<Message>, chunks: seq<string>) returns (result: seq<Message>)
    requires |messages| > 0
    ensures result == Streamed(messages, chunks)
  {
    var fullResponse := "";
    result := messages;
    var k := 0;
    while k < |chunks|
      invariant 0 <= k <= |chunks|
      invariant fullResponse == Concat(chunks[..k])
      invariant result == Streamed(messages, chunks[..k])
    {
      ConcatSnoc(chunks, k);
      fullResponse := fullResponse + chunks[k];
      result := SetLast(result, fullResponse);
      assert result == SetLast(messages, Concat(chunks[..k + 1]));
      k := k + 1;
    }
    assert chunks[..k] == chunks;
  }

  /** How the awaited call ended: the analysis text, the chunks handed to `onChunk`, or a throw. */
  datatype Outcome = Analysed(text: string) | Chunked(chunks: seq<string>) | Threw

  /**
   * `handleSend` from start to finish, given how its request ended: an
   * empty send changes nothing; any other leaves the page ready for the
   * next message with the earlier conversation untouched.
   */
  function Send(page: Page, outcome: Outcome): (after: Page)
    ensures NothingToSend(page) ==> after == page
    ensures !NothingToSend(page) ==>
      && |after.messages| == |page.messages| + 2
      && after.messages[..|page.messages|] == page.messages
      && !after.loading && after.input == ""
  {
    if NothingToSend(page) then page
    else
      var (next, _) := Submit(page);
      var messages :=
        match outcome
        case Analysed(text) => SetLast(next.messages, text)
        case Chunked(chunks) => Streamed(next.messages, chunks)
        case Threw => SetLast(next.messages, ErrorText);
      next.(messages := messages, loading := false)
  }

  /** An empty text box with no image attached does nothing. */
  lemma EmptySendIgnored(page: Page, outcome: Outcome)
    requires Trim(page.input) == "" && page.selected.None?
    ensures Send(page, outcome) == page
  {
  }

  /** Text made only of spaces counts as empty. */
  lemma BlankTextIgnored(page: Page, outcome: Outcome)
    requires AllSpace(page.input) && page.selected.None?
    ensures Send(page, outcome) == page
  {
  }

  /**
   * A send keeps the conversation and adds exactly two messages: the user's
   * trimmed text with the image preview, then the assistant's reply. The
   * text box and the attachment are cleared.
   */
  lemma SendAppendsTwo(page: Page, outcome: Outcome)
    requires !NothingToSend(page)
    ensures var after := Send(page, outcome);
      && |after.messages| == |page.messages| + 2
      && after.messages[..|page.messages|] == page.messages
      && after.messages[|page.messages|] == Message("user", Trim(page.input), page.preview)
      && after.messages[|page.messages| + 1].role == "assistant"
      && after.messages[|page.messages| + 1].image.None?
      && after.input == "" && after.selected.None? && after.preview.None? && !after.loading
  {
    var (next, _) := Submit(page);
    var n := |page.messages|;
    assert next.messages[..n + 1] == page.messages + [UserMessage(page)];
    var after := Send(page, outcome);
    assert after.messages[..n + 1] == next.messages[..n + 1];
    assert after.messages[..n] == after.messages[..n + 1][..n];
  }

  /** The assistant's message holds the analysis, all streamed text in order, or the error text. */
  lemma ReplyContent(page: Page, outcome: Outcome)
    requires !NothingToSend(page)
    ensures var reply := Send(page, outcome).messages[|page.messages| + 1].content;
      match outcome
      case Analysed(text) => reply == text
      case Chunked(chunks) => reply == Concat(chunks)
      case Threw => reply == ErrorText
  {
  }

  /** With an image attached the image is analysed, with the typed text as prompt or the default one. */
  lemma ImageGoesToVision(page: Page)
    requires page.selected.Some?
    ensures Submit(page).1 == Vision(page.selected.value,
      if Trim(page.input) == "" then DefaultImagePrompt else Trim(page.input))
  {
  }

  /** Without one the whole conversation so far, ending with the user's message, goes to the chat. */
  lemma TextGoesToChat(page: Page)
    requires page.selected.None? && Trim(page.input) != ""
    ensures Submit(page).1 == Chat(page.messages + [UserMessage(page)])
    ensures Submit(page).1.conversation[|page.messages|].content != ""
  {
  }

  /**
   * The greeting opens every conversation: it stays the first message
   * after any send, and the chat request therefore always starts with it.
   */
  lemma GreetingStaysFirst(page: Page, outcome: Outcome)
    requires |page.messages| > 0 && page.messages[0] == Greeting
    ensures |Send(page, outcome).messages| > 0 && Send(page, outcome).messages[0] == Greeting
    ensures !NothingToSend(page) && page.selected.None? ==> Submit(page).1.conversation[0] == Greeting
  {
    if !NothingToSend(page) {
      SendAppendsTwo(page, outcome);
      assert Send(page, outcome).messages[0] == Send(page, outcome).messages[..|page.messages|][0];
    }
  }

  /** The chat request `getGeminiStream` posts: `{ messages, stream: true }`. */
  function ChatRequestOf(conversation: seq<Message>): PulseChat.ChatRequest {
    PulseChat.ChatRequest("POST",
      Some(seq(|conversation|, k requires 0 <= k < |conversation| =>
        PulseChat.Message(conversation[k].role, conversation[k].content))),
      true)
  }

  /**
   * Whatever the conversation holds, a text send passes every check of the
   * chat endpoint once its key is configured, and the text sent is the
   * user's trimmed text.
   */
  lemma ChatSendAccepted(env: Env, page: Page)
    requires ApiKey(env) != ""
    requires page.selected.None? && Trim(page.input) != ""
    ensures PulseChat.Accepted(env, ChatRequestOf(Submit(page).1.conversation))
    ensures PulseChat.Prepare(env, ChatRequestOf(Submit(page).1.conversation)).input == Trim(page.input)
  {
    var request := ChatRequestOf(Submit(page).1.conversation);
    PulseChat.ForwardedConversation(env, request);
  }

  /** The first question: the greeting is left out of the history, which is empty. */
  lemma FirstQuestion(env: Env, question: string)
    requires ApiKey(env) != "" && Trim(question) != ""
    ensures var call := Submit(Initial.(input := question)).1;
      PulseChat.Prepare(env, ChatRequestOf(call.conversation))
        == PulseChat.Forward(PulseChat.Session(PulseChat.ModelName, PulseChat.SystemPrompt, []), Trim(question), true)
  {
    var page := Initial.(input := question);
    var request := ChatRequestOf(Submit(page).1.conversation);
    PulseChat.ForwardedConversation(env, request);
  }

  /**
   * A complete conversation turn: the question goes to the chat endpoint,
   * whose stream reaches the browser in pieces of any size, and the
   * assistant's message ends up holding the backend's whole reply.
   */
  lemma ConversationTurn(env: Env, page: Page, backend: PulseChat.Backend,
                         pieces: seq<string>, readFails: bool, single: Fetch, parse: Parser)
    requires ReadsBack(parse) && ApiKey(env) != ""
    requires page.selected.None? && Trim(page.input) != ""
    requires var request := ChatRequestOf(Submit(page).1.conversation);
      var plan := PulseChat.Prepare(env, request);
      && plan.Forward?
      && backend.sendStream(plan.session, plan.input).failure.None?
      && Concat(pieces) == BodyText(PulseChat.Handle(env, request, backend))
    ensures var request := ChatRequestOf(Submit(page).1.conversation);
      var plan := PulseChat.Prepare(env, request);
      var calls := StreamCalls(Fetched(true, pieces, readFails), single, parse);
      Send(page, Chunked(calls)).messages[|page.messages| + 1].content
        == Concat(backend.sendStream(plan.session, plan.input).chunks)
  {
    var request := ChatRequestOf(Submit(page).1.conversation);
    ChatSendAccepted(env, page);
    StreamedChat(env, request, backend, pieces, readFails, single, parse);
    ReplyContent(page, Chunked(StreamCalls(Fetched(true, pieces, readFails), single, parse)));
  }
}

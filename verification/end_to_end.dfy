/**
 * Each endpoint composed with the browser function that calls it: what
 * the handler writes is what the client reads back, provided `JSON.parse`
 * inverts `JSON.stringify`.
 */
module EndToEnd {
  import opened Common
  import opened Strings
  import opened Json
  import opened Http
  import opened StreamReader
  import opened GeminiClient
  import PulseChat
  import AnalyzeImage
  import FoodScan

  /** `JSON.parse(JSON.stringify(v))` gives `v` back. */
  ghost predicate ReadsBack(parse: Parser) {
    forall v :: parse(Serialize(v)) == Parsed(v)
  }

  /** The text of a response body as it goes over the wire. */
  function BodyText(response: Response): string {
    match response
    case JsonReply(_, body) => Serialize(body)
    case EventStream(events, _) => Concat(events)
  }

  /** The browser received all of `response`, in pieces of any size. */
  predicate Carries(response: Response, fetched: Fetch) {
    && fetched.Fetched?
    && fetched.ok == response.Ok()
    && !fetched.readFails
    && Concat(fetched.pieces) == BodyText(response)
  }

  /** An event without its terminating blank line. */
  function Frame(payload: Json): string {
    DataPrefix + Serialize(payload)
  }

  /** The chunks with the empty ones left out: `if (data.text)` skips those. */
  function NonEmpty(chunks: seq<string>): seq<string> {
    if |chunks| == 0 then []
    else (if chunks[0] == "" then [] else [chunks[0]]) + NonEmpty(chunks[1..])
  }

  /** Leaving out empty chunks does not change the text they add up to. */
  lemma {:induction false} NonEmptySameText(chunks: seq<string>)
    ensures Concat(NonEmpty(chunks)) == Concat(chunks)
  {
    if |chunks| > 0 {
      NonEmptySameText(chunks[1..]);
      var head := if chunks[0] == "" then [] else [chunks[0]];
      ConcatAppend(head, NonEmpty(chunks[1..]));
      assert Concat(head) == (if chunks[0] == "" then "" else chunks[0] + Concat([]));
    }
  }

  lemma FrameOneLine(payload: Json)
    ensures IndexOf(Frame(payload) + EventEnd, EventEnd) == Some(|Frame(payload)|)
  {
    SerializeNoLineFeed(payload);
    assert NoLineFeed(DataPrefix);
    NoLineFeedAppend(DataPrefix, Serialize(payload));
    FirstBlankLine(Frame(payload));
  }

  /** The frames of a sequence of payloads, in order. */
  function Frames(payloads: seq<Json>): seq<string> {
    seq(|payloads|, k requires 0 <= k < |payloads| => Frame(payloads[k]))
  }

  function Events(payloads: seq<Json>): seq<string> {
    seq(|payloads|, k requires 0 <= k < |payloads| => Event(payloads[k]))
  }

  lemma {:induction false} EventsTerminated(payloads: seq<Json>)
    ensures Concat(Events(payloads)) == Terminated(Frames(payloads), EventEnd)
  {
    if |payloads| > 0 {
      EventsTerminated(payloads[1..]);
      assert Events(payloads)[1..] == Events(payloads[1..]);
      assert Frames(payloads)[1..] == Frames(payloads[1..]);
      assert Event(payloads[0]) == Frame(payloads[0]) + EventEnd;
    }
  }

  /**
   * The complete frames of a stream of events are the events' frames; an
   * unterminated partial frame after them is never examined.
   */
  lemma StreamFrames(payloads: seq<Json>, tail: string)
    requires !Contains(tail, EventEnd)
    ensures CompleteFrames(Concat(Events(payloads)) + tail) == Frames(payloads)
  {
    EventsTerminated(payloads);
    forall k | 0 <= k < |Frames(payloads)|
      ensures IndexOf(Frames(payloads)[k] + EventEnd, EventEnd) == Some(|Frames(payloads)[k]|)
    {
      FrameOneLine(payloads[k]);
    }
    SplitTerminated(Frames(payloads), EventEnd, tail);
    IndexOfSpec(tail, EventEnd);
    assert Split(tail, EventEnd) == [tail];
    assert AllButLast(Frames(payloads) + [tail]) == Frames(payloads);
  }

  /** What the reader makes of a stream of events followed by a partial frame: the tail is discarded. */
  lemma PartialFrameDiscarded(payloads: seq<Json>, tail: string, parse: Parser)
    requires !Contains(tail, EventEnd)
    ensures Decode(Concat(Events(payloads)) + tail, parse) == Decode(Concat(Events(payloads)), parse)
  {
    StreamFrames(payloads, tail);
    StreamFrames(payloads, "");
    assert Concat(Events(payloads)) + "" == Concat(Events(payloads));
  }

  /** The payloads the chat endpoint streams for backend chunks that all arrived. */
  function ChatPayloads(chunks: seq<string>): seq<Json> {
    seq(|chunks|, k requires 0 <= k < |chunks| => PulseChat.TextPayload(chunks[k])) + [PulseChat.DonePayload]
  }

  lemma ChatEvents(chunks: seq<string>)
    ensures PulseChat.TextEvents(chunks) + [Event(PulseChat.DonePayload)] == Events(ChatPayloads(chunks))
  {
  }

  lemma FramePayload(payload: Json)
    ensures StartsWith(Frame(payload), DataPrefix)
    ensures Frame(payload)[|DataPrefix|..] == Serialize(payload)
  {
  }

  /** A text frame hands its text on when it is not empty. */
  lemma ClassifyText(text: string, parse: Parser)
    requires ReadsBack(parse)
    ensures Classify(Frame(PulseChat.TextPayload(text)), parse) == if text == "" then Skip else Emit(text)
  {
    FramePayload(PulseChat.TextPayload(text));
    assert parse(Serialize(PulseChat.TextPayload(text))) == Parsed(PulseChat.TextPayload(text));
  }

  lemma ClassifyDone(parse: Parser)
    requires ReadsBack(parse)
    ensures Classify(Frame(PulseChat.DonePayload), parse) == Stop
  {
    FramePayload(PulseChat.DonePayload);
    assert parse(Serialize(PulseChat.DonePayload)) == Parsed(PulseChat.DonePayload);
  }

  lemma {:induction false} DispatchChat(chunks: seq<string>, parse: Parser)
    requires ReadsBack(parse)
    ensures Dispatch(Frames(ChatPayloads(chunks)), parse) == Decoded(NonEmpty(chunks), true)
  {
    var frames := Frames(ChatPayloads(chunks));
    if |chunks| == 0 {
      assert frames == [Frame(PulseChat.DonePayload)];
      ClassifyDone(parse);
    } else {
      assert frames[0] == Frame(PulseChat.TextPayload(chunks[0]));
      assert frames[1..] == Frames(ChatPayloads(chunks[1..]));
      ClassifyText(chunks[0], parse);
      DispatchChat(chunks[1..], parse);
    }
  }

  /**
   * A chat stream that completes, read in pieces of any size: the page is
   * handed exactly the backend's non-empty chunks, in order, which add up
   * to the backend's whole text; the fallback is never asked, even if the
   * connection then breaks.
   */
  lemma StreamedChat(env: Env, req: PulseChat.ChatRequest, backend: PulseChat.Backend,
                     pieces: seq<string>, readFails: bool, single: Fetch, parse: Parser)
    requires ReadsBack(parse)
    requires PulseChat.Accepted(env, req) && req.stream
    requires backend.sendStream(PulseChat.Prepare(env, req).session, PulseChat.Prepare(env, req).input).failure.None?
    requires Concat(pieces) == BodyText(PulseChat.Handle(env, req, backend))
    ensures var chunks := backend.sendStream(PulseChat.Prepare(env, req).session, PulseChat.Prepare(env, req).input).chunks;
      && StreamCalls(Fetched(true, pieces, readFails), single, parse) == NonEmpty(chunks)
      && Concat(StreamCalls(Fetched(true, pieces, readFails), single, parse)) == Concat(chunks)
  {
    PulseChat.ValidationOrder(env, req, backend);
    var plan := PulseChat.Prepare(env, req);
    var chunks := backend.sendStream(plan.session, plan.input).chunks;
    assert PulseChat.Handle(env, req, backend)
      == EventStream(PulseChat.TextEvents(chunks) + [Event(PulseChat.DonePayload)], true);
    ChatEvents(chunks);
    StreamFrames(ChatPayloads(chunks), "");
    assert Concat(pieces) + "" == Concat(pieces);
    DispatchChat(chunks, parse);
    NonEmptySameText(chunks);
  }

  /**
   * The non-streaming chat request: the page gets the backend's reply as
   * one chunk, or the apology when the endpoint answered with an error.
   */
  lemma SingleChat(env: Env, req: PulseChat.ChatRequest, backend: PulseChat.Backend,
                   streamed: Fetch, single: Fetch, parse: Parser)
    requires ReadsBack(parse)
    requires !req.stream
    requires !(streamed.Fetched? && streamed.ok)
    requires Carries(PulseChat.Handle(env, req, backend), single)
    ensures (PulseChat.Accepted(env, req)
        && backend.send(PulseChat.Prepare(env, req).session, PulseChat.Prepare(env, req).input).Replied?) ==>
        StreamCalls(streamed, single, parse) ==
          [backend.send(PulseChat.Prepare(env, req).session, PulseChat.Prepare(env, req).input).text]
    ensures !PulseChat.Handle(env, req, backend).Ok() ==> StreamCalls(streamed, single, parse) == [Apology]
  {
    var response := PulseChat.Handle(env, req, backend);
    PulseChat.ValidationOrder(env, req, backend);
    assert response.JsonReply?;
    assert parse(Serialize(response.body)) == Parsed(response.body);
  }

  /**
   * Uploading an image for analysis: the caller gets the backend's text, or
   * the fixed failure message whenever the endpoint answered with an error.
   */
  lemma VisionRoundTrip(env: Env, req: Request, generate: Generator, reply: Fetch, parse: Parser)
    requires ReadsBack(parse)
    requires Carries(AnalyzeImage.Handle(env, req, generate), reply)
    ensures var accepted := req.httpMethod == "POST" && ApiKey(env) != "" && Truthy(BodyField(req.body, "base64Image"));
      GeminiClient.AnalyzeImage(reply, parse) ==
        if accepted && generate(AnalyzeImage.VisionRequest(req.body)).Replied?
        then generate(AnalyzeImage.VisionRequest(req.body)).text
        else VisionFailure
  {
    var response := AnalyzeImage.Handle(env, req, generate);
    assert parse(Serialize(response.body)) == Parsed(response.body);
  }

  /**
   * Scanning food: the caller gets the parsed record itself and no error,
   * or no data and the fixed failure message; never a made-up record.
   */
  lemma FoodRoundTrip(env: Env, req: Request, generate: Generator, parseModel: Parser, reply: Fetch, parse: Parser)
    requires ReadsBack(parse)
    requires Carries(FoodScan.Handle(env, req, generate, parseModel), reply)
    ensures var accepted := req.httpMethod == "POST" && ApiKey(env) != "" && Truthy(BodyField(req.body, "base64Image"));
      ScanFoodImage(reply, parse) ==
        if accepted && generate(FoodScan.ScanRequest(req.body)).Replied?
          && parseModel(generate(FoodScan.ScanRequest(req.body)).text).Parsed?
        then ScanResult(Some(parseModel(generate(FoodScan.ScanRequest(req.body)).text).value), None)
        else ScanResult(None, Some(ScanFailure))
  {
    var response := FoodScan.Handle(env, req, generate, parseModel);
    assert parse(Serialize(response.body)) == Parsed(response.body);
  }
}

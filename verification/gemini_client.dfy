/**
 * The browser library the pages call: `getGeminiStream` (stream the chat
 * reply, else ask for it whole, else apologise), `analyzeImage` and
 * `scanFoodImage`. None of them ever throws: every failure becomes a fixed
 * message.
 */
module GeminiClient {
  import opened Common
  import opened Strings
  import opened Json
  import opened Http
  import opened StreamReader

  const Apology := "Pulse is unavailable right now. Please check your network and try again."
  const VisionFailure := "Image analysis failed. Please try again with a clearer photo."
  const ScanFailure := "Food scan failed. Try better lighting and a closer shot."

  /**
   * What one `fetch` gave the browser: a network error, or a response whose
   * status was 2xx or not and whose body arrived in `pieces`; `readFails`
   * when reading the body threw after those pieces.
   */
  datatype Fetch =
    | NetworkError
    | Fetched(ok: bool, pieces: seq<string>, readFails: bool)

  /** `await res.json()`: the parsed body, or `None` when reading or parsing throws. */
  function BodyJson(pieces: seq<string>, readFails: bool, parse: Parser): Option<Json> {
    if readFails then None
    else
      match parse(Concat(pieces))
      case Parsed(v) => Some(v)
      case Unparseable(_) => None
  }

  /**
   * The one `onChunk` call of the non-streaming fallback: `String(json.text || "")`
   * of a 2xx reply, and the apology for anything that throws on the way
   * (network, a body that is not JSON, a non-2xx status, a `null` body).
   */
  function FallbackChunk(single: Fetch, parse: Parser): (chunk: string)
    ensures single.NetworkError? ==> chunk == Apology
    ensures chunk != Apology ==>
      && single.Fetched? && single.ok && !single.readFails
      && parse(Concat(single.pieces)).Parsed?
  {
    match single
    case NetworkError => Apology
    case Fetched(ok, pieces, readFails) =>
      match BodyJson(pieces, readFails, parse)
      case None => Apology
      case Some(json) =>
        if !ok || json.JNull? then Apology
        else if Truthy(Field(json, "text")) then ToJsString(Field(json, "text").value)
        else ""
  }

  /**
   * The `onChunk` calls of one `getGeminiStream`: `streamed` is the answer
   * to the streaming request, `single` to the fallback request (used only
   * when the first did not open, or failed before its `done` frame).
   */
  function StreamCalls(streamed: Fetch, single: Fetch, parse: Parser): (calls: seq<string>)
    ensures !(streamed.Fetched? && streamed.ok) ==> |calls| == 1
    ensures streamed.Fetched? && streamed.ok ==>
      var delivered := Decode(Concat(streamed.pieces), parse).delivered;
      && delivered <= calls
      && |calls| <= |delivered| + 1
    ensures streamed.Fetched? && streamed.ok && Decode(Concat(streamed.pieces), parse).stopped ==>
      calls == Decode(Concat(streamed.pieces), parse).delivered
  {
    match streamed
    case Fetched(true, pieces, readFails) =>
      var reading := Decode(Concat(pieces), parse);
      if reading.stopped || !readFails then reading.delivered
      else reading.delivered + [FallbackChunk(single, parse)]
    case _ => [FallbackChunk(single, parse)]
  }

  /** `getGeminiStream` with its reading loop; it returns the `onChunk` calls in order. */
  method GetGeminiStream(streamed: Fetch, single: Fetch, parse: Parser) returns (calls: seq<string>)
    ensures calls == StreamCalls(streamed, single, parse)
  {
    if streamed.Fetched? && streamed.ok {
      var delivered, stopped := ReadEvents(streamed.pieces, parse);
      if stopped || !streamed.readFails {
        return delivered;
      }
      calls := delivered + [FallbackChunk(single, parse)];
    } else {
      calls := [FallbackChunk(single, parse)];
    }
  }

  /**
   * The outcomes of `getGeminiStream`: a stream that opens and reads to its
   * end (or to `done`) hands on only what it decoded; anything else ends
   * with exactly one more call, the fallback's text or the apology, after
   * whatever the broken stream had already handed on.
   */
  lemma StreamOutcomes(streamed: Fetch, single: Fetch, parse: Parser)
    ensures streamed.Fetched? && streamed.ok && !streamed.readFails ==>
      StreamCalls(streamed, single, parse) == Decode(Concat(streamed.pieces), parse).delivered
    ensures !(streamed.Fetched? && streamed.ok) ==> StreamCalls(streamed, single, parse) == [FallbackChunk(single, parse)]
    ensures streamed.Fetched? && streamed.ok && streamed.readFails && !Decode(Concat(streamed.pieces), parse).stopped ==>
      StreamCalls(streamed, single, parse) == Decode(Concat(streamed.pieces), parse).delivered + [FallbackChunk(single, parse)]
    ensures single.NetworkError? && !(streamed.Fetched? && streamed.ok) ==> StreamCalls(streamed, single, parse) == [Apology]
    ensures streamed.Fetched? && streamed.ok && Decode(Concat(streamed.pieces), parse).stopped ==>
      StreamCalls(streamed, single, parse) == Decode(Concat(streamed.pieces), parse).delivered
  {
  }

  /** `analyzeImage`: the reply's text, or the fixed failure message; it never throws. */
  function AnalyzeImage(reply: Fetch, parse: Parser): (text: string)
    ensures reply.NetworkError? ==> text == VisionFailure
    ensures text != VisionFailure ==>
      && reply.Fetched? && reply.ok && !reply.readFails
      && parse(Concat(reply.pieces)).Parsed?
  {
    match reply
    case NetworkError => VisionFailure
    case Fetched(ok, pieces, readFails) =>
      match BodyJson(pieces, readFails, parse)
      case None => VisionFailure
      case Some(json) =>
        if !ok || json.JNull? then VisionFailure
        else if Truthy(Field(json, "text")) then ToJsString(Field(json, "text").value)
        else ""
  }

  /**
   * `{ data, error }` as `scanFoodImage` returns it. A `None` field is the
   * `null` the failure branch writes, or a `data` the reply did not have
   * (`undefined`); a reply whose `data` is JSON `null` gives `Some(JNull)`.
   */
  datatype ScanResult = ScanResult(data: Option<Json>, error: Option<string>)

  /** `scanFoodImage`: the reply's `data` with no error, or no data and the fixed failure message. */
  function ScanFoodImage(reply: Fetch, parse: Parser): (result: ScanResult)
    ensures result.error.Some? ==> result == ScanResult(None, Some(ScanFailure))
    ensures result.error.None? ==>
      && reply.Fetched? && reply.ok && !reply.readFails
      && parse(Concat(reply.pieces)).Parsed?
      && result.data == Field(parse(Concat(reply.pieces)).value, "data")
  {
    match reply
    case NetworkError => ScanResult(None, Some(ScanFailure))
    case Fetched(ok, pieces, readFails) =>
      match BodyJson(pieces, readFails, parse)
      case None => ScanResult(None, Some(ScanFailure))
      case Some(json) =>
        if !ok || json.JNull? then ScanResult(None, Some(ScanFailure))
        else ScanResult(Field(json, "data"), None)
  }

  /** Exactly one of `data` and `error` is set only when the reply carried data; a failure always has its message. */
  lemma ScanResultShape(reply: Fetch, parse: Parser)
    ensures ScanFoodImage(reply, parse).error.Some? ==>
      ScanFoodImage(reply, parse) == ScanResult(None, Some("Food scan failed. Try better lighting and a closer shot."))
    ensures ScanFoodImage(reply, parse).error.None? <==>
      reply.Fetched? && reply.ok && BodyJson(reply.pieces, reply.readFails, parse).Some?
      && !BodyJson(reply.pieces, reply.readFails, parse).value.JNull?
  {
  }
}

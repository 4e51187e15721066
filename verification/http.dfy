/**
 * What the three serverless endpoints share: the credential they read from
 * the environment, the shape of their HTTP responses, and the generative
 * backend, which is not modelled beyond the replies it can give.
 */
module Http {
  import opened Common
  import opened Json

  /** The two environment variables the endpoints consult; "" when unset. */
  datatype Env = Env(geminiApiKey: string, googleApiKey: string)

  /** `process.env.GEMINI_API_KEY || process.env.GOOGLE_API_KEY`: the first one that is set. */
  function ApiKey(env: Env): (key: string)
    ensures key == "" <==> env.geminiApiKey == "" && env.googleApiKey == ""
    ensures env.geminiApiKey != "" ==> key == env.geminiApiKey
    ensures env.geminiApiKey == "" ==> key == env.googleApiKey
  {
    if env.geminiApiKey != "" then env.geminiApiKey else env.googleApiKey
  }

  /** An incoming request: its method and its parsed JSON body, `None` when absent. */
  datatype Request = Request(httpMethod: string, body: Option<Json>)

  /** A field of `req.body || {}`: a falsy body reads as an empty object. */
  function BodyField(body: Option<Json>, key: string): Option<Json> {
    if Truthy(body) then Field(body.value, key) else None
  }

  const MethodNotAllowed := 405
  const BadRequest := 400
  const ServerError := 500
  const Success := 200

  /**
   * A response: a JSON body with a status (`res.status(s).json(body)`), or
   * a `text/event-stream` whose events were written in order; `ended` is
   * false when the handler failed after the stream had started.
   */
  datatype Response =
    | JsonReply(status: int, body: Json)
    | EventStream(events: seq<string>, ended: bool)
  {
    /** The client's `res.ok`: a 2xx status (an event stream is sent with 200). */
    predicate Ok() {
      match this
      case JsonReply(status, _) => 200 <= status <= 299
      case EventStream(_, _) => true
    }
  }

  /** `{ error: message }` with the given status. */
  function ErrorReply(status: int, message: string): Response {
    JsonReply(status, JObject([("error", JString(message))]))
  }

  /** `{ error: message, details: e.message }` with status 500. */
  function FailureReply(message: string, details: string): Response {
    JsonReply(ServerError, JObject([("error", JString(message)), ("details", JString(details))]))
  }

  /** Server-sent events: each event is `data: <payload>` followed by a blank line. */
  const DataPrefix := "data: "
  const EventEnd := "\n\n"

  /** One event carrying a JSON payload, as the chat endpoint writes it. */
  function Event(payload: Json): string {
    DataPrefix + Serialize(payload) + EventEnd
  }

  /** A call into the generative backend: the text it produced, or the message of what it threw. */
  datatype Reply = Replied(text: string) | Failed(message: string)

  /** One single-turn `generateContent` call with a text part and an inline image. */
  datatype ImageRequest = ImageRequest(
    model: string,
    prompt: string,
    data: string,
    mimeType: string,
    jsonResponse: bool)

  /** The backend's single-turn generation. */
  type Generator = ImageRequest -> Reply
}

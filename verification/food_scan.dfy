/**
 * The food-scan endpoint: a POST carrying `base64Image` is answered with
 * the nutrition record the backend produced in JSON mode, parsed.
 */
module FoodScan {
  import opened Common
  import opened Json
  import opened Http
  import opened ImagePayload
  import AnalyzeImage

  const ModelName := "gemini-2.5-flash"

  /** The fixed instruction, with the template literal's line breaks and indentation. */
  const Prompt := "\n    Identify the food items in this image and estimate nutritional values.\n    Return a single JSON object with these keys:\n    - food_name (string)\n    - calories (number)\n    - protein (number)\n    - carbs (number)\n    - fats (number)\n    "

  const MethodMessage := "Method not allowed"
  const MissingKeyMessage := "Missing API Key"
  const MissingImageMessage := "Missing base64Image"
  const FailureMessage := "Food scan failed"

  /**
   * The request for the backend: the same data the vision endpoint would
   * forward, but always labelled `image/jpeg`, with the fixed prompt, in
   * JSON mode.
   */
  function ScanRequest(body: Option<Json>): (r: ImageRequest)
    requires Truthy(BodyField(body, "base64Image"))
    ensures r.data == AnalyzeImage.VisionRequest(body).data && CommaFree(r.data)
    ensures r.mimeType == "image/jpeg" && r.prompt == Prompt && r.jsonResponse && r.model == "gemini-2.5-flash"
  {
    DataPartCommaFree(ToJsString(BodyField(body, "base64Image").value));
    ImageRequest(ModelName, Prompt, DataPart(ToJsString(BodyField(body, "base64Image").value)), DefaultMimeType, true)
  }

  /**
   * The endpoint's response; backend failures and parse errors are both
   * caught into a 500. It is always JSON, and a success carries the parsed
   * reply itself under `data`.
   */
  function Handle(env: Env, req: Request, generate: Generator, parse: Parser): (r: Response)
    ensures r.JsonReply?
    ensures r.Ok() ==>
      && r.status == 200 && Truthy(BodyField(req.body, "base64Image"))
      && generate(ScanRequest(req.body)).Replied?
      && parse(generate(ScanRequest(req.body)).text).Parsed?
      && r.body == JObject([("data", parse(generate(ScanRequest(req.body)).text).value)])
  {
    if req.httpMethod != "POST" then ErrorReply(MethodNotAllowed, MethodMessage)
    else if ApiKey(env) == "" then ErrorReply(ServerError, MissingKeyMessage)
    else if !Truthy(BodyField(req.body, "base64Image")) then ErrorReply(BadRequest, MissingImageMessage)
    else
      match generate(ScanRequest(req.body))
      case Failed(message) => FailureReply(FailureMessage, message)
      case Replied(text) =>
        match parse(text)
        case Parsed(value) => JsonReply(Success, JObject([("data", value)]))
        case Unparseable(message) => FailureReply(FailureMessage, message)
  }

  /** The checks run in order, with this endpoint's own error messages. */
  lemma ValidationOrder(env: Env, req: Request, generate: Generator, parse: Parser)
    ensures req.httpMethod != "POST" ==> Handle(env, req, generate, parse) == ErrorReply(405, "Method not allowed")
    ensures req.httpMethod == "POST" && env.geminiApiKey == "" && env.googleApiKey == "" ==>
      Handle(env, req, generate, parse) == ErrorReply(500, "Missing API Key")
    ensures req.httpMethod == "POST" && ApiKey(env) != "" && !Truthy(BodyField(req.body, "base64Image")) ==>
      Handle(env, req, generate, parse) == ErrorReply(400, "Missing base64Image")
  {
  }

  /**
   * Success exactly when the backend answers and its text parses; the 200
   * body is the parsed value itself, and every other outcome is a 500
   * "Food scan failed" whose details are the error message. No substitute
   * record is ever made up.
   */
  lemma NoSubstituteRecord(env: Env, req: Request, generate: Generator, parse: Parser)
    requires req.httpMethod == "POST" && ApiKey(env) != "" && Truthy(BodyField(req.body, "base64Image"))
    ensures var reply := generate(ScanRequest(req.body));
      Handle(env, req, generate, parse).Ok() <==> reply.Replied? && parse(reply.text).Parsed?
    ensures var reply := generate(ScanRequest(req.body));
      reply.Replied? && parse(reply.text).Parsed? ==>
        Handle(env, req, generate, parse) == JsonReply(200, JObject([("data", parse(reply.text).value)]))
    ensures var reply := generate(ScanRequest(req.body));
      reply.Failed? ==> Handle(env, req, generate, parse) == FailureReply("Food scan failed", reply.message)
    ensures var reply := generate(ScanRequest(req.body));
      reply.Replied? && parse(reply.text).Unparseable? ==>
        Handle(env, req, generate, parse) == FailureReply("Food scan failed", parse(reply.text).message)
  {
  }

  /**
   * Only the image reaches the backend: a caller-supplied `prompt` or any
   * other field changes nothing, and the type is `image/jpeg` whatever the
   * data URL says.
   */
  lemma OnlyTheImageMatters(b1: Option<Json>, b2: Option<Json>)
    requires Truthy(BodyField(b1, "base64Image"))
    requires BodyField(b1, "base64Image") == BodyField(b2, "base64Image")
    ensures ScanRequest(b1) == ScanRequest(b2)
    ensures ScanRequest(b1).mimeType == "image/jpeg" && ScanRequest(b1).prompt == Prompt
  {
  }

  /**
   * Both image endpoints forward the same data for the same upload; their
   * MIME types agree exactly when the vision endpoint's reading of the
   * header yields `image/jpeg` as well.
   */
  lemma SameDataAsVision(body: Option<Json>)
    requires Truthy(BodyField(body, "base64Image"))
    ensures ScanRequest(body).data == AnalyzeImage.VisionRequest(body).data
    ensures ScanRequest(body).mimeType == AnalyzeImage.VisionRequest(body).mimeType <==>
      ParseImage(ToJsString(BodyField(body, "base64Image").value)).mimeType == "image/jpeg"
  {
  }

  /** A PNG data URL is still labelled `image/jpeg` here, though its data is recovered. */
  lemma DataUrlMislabelled(mimeType: string, data: string)
    requires AllPassable(mimeType) && CommaFree(mimeType) && CommaFree(data)
    ensures var body := Some(JObject([("base64Image", JString("data:" + mimeType + ";base64," + data))]));
      && Truthy(BodyField(body, "base64Image"))
      && ScanRequest(body).data == data
      && ScanRequest(body).mimeType == "image/jpeg"
  {
    DataUrlRoundTrip(mimeType, data);
  }
}

/**
 * The vision endpoint: a POST carrying `base64Image` and an optional
 * `prompt` is answered with the backend's text about the image.
 */
module AnalyzeImage {
  import opened Common
  import opened Json
  import opened Http
  import opened ImagePayload

  const ModelName := "gemini-2.5-flash"
  const DefaultPrompt := "Analyze this image for fitness or nutrition insights. Be concise and specific."

  const MethodMessage := "Method not allowed"
  const MissingKeyMessage := "Missing GEMINI_API_KEY"
  const MissingImageMessage := "Missing base64Image data"
  const FailureMessage := "Image analysis failed"

  /**
   * The request for the backend built from a body whose `base64Image` is
   * truthy: a plain (not JSON-mode) request to the flash model whose data
   * and type a data URL can carry, with the default prompt when none is given.
   */
  function VisionRequest(body: Option<Json>): (r: ImageRequest)
    requires Truthy(BodyField(body, "base64Image"))
    ensures r.model == "gemini-2.5-flash" && !r.jsonResponse
    ensures CommaFree(r.data) && CommaFree(r.mimeType) && AllPassable(r.mimeType)
    ensures !Truthy(BodyField(body, "prompt")) ==> r.prompt == DefaultPrompt
    ensures Truthy(BodyField(body, "prompt")) ==> r.prompt == ToJsString(BodyField(body, "prompt").value)
    ensures r.data == ParseImage(ToJsString(BodyField(body, "base64Image").value)).data
    ensures r.mimeType == ParseImage(ToJsString(BodyField(body, "base64Image").value)).mimeType
  {
    var image := ParseImage(ToJsString(BodyField(body, "base64Image").value));
    var prompt := BodyField(body, "prompt");
    ImageRequest(
      ModelName,
      if Truthy(prompt) then ToJsString(prompt.value) else DefaultPrompt,
      image.data,
      image.mimeType,
      false)
  }

  /**
   * The endpoint's response; the backend's failures are caught into a 500.
   * It is always JSON, and a success carries exactly the backend's text.
   */
  function Handle(env: Env, req: Request, generate: Generator): (r: Response)
    ensures r.JsonReply?
    ensures r.Ok() ==>
      && r.status == 200 && Truthy(BodyField(req.body, "base64Image"))
      && generate(VisionRequest(req.body)).Replied?
      && r.body == JObject([("text", JString(generate(VisionRequest(req.body)).text))])
  {
    if req.httpMethod != "POST" then ErrorReply(MethodNotAllowed, MethodMessage)
    else if ApiKey(env) == "" then ErrorReply(ServerError, MissingKeyMessage)
    else if !Truthy(BodyField(req.body, "base64Image")) then ErrorReply(BadRequest, MissingImageMessage)
    else
      match generate(VisionRequest(req.body))
      case Replied(text) => JsonReply(Success, JObject([("text", JString(text))]))
      case Failed(message) => FailureReply(FailureMessage, message)
  }

  /** The checks run in order, and only a request that passes all three reaches the backend. */
  lemma ValidationOrder(env: Env, req: Request, generate: Generator)
    ensures req.httpMethod != "POST" ==> Handle(env, req, generate) == ErrorReply(405, "Method not allowed")
    ensures req.httpMethod == "POST" && env.geminiApiKey == "" && env.googleApiKey == "" ==>
      Handle(env, req, generate) == ErrorReply(500, "Missing GEMINI_API_KEY")
    ensures req.httpMethod == "POST" && ApiKey(env) != "" && !Truthy(BodyField(req.body, "base64Image")) ==>
      Handle(env, req, generate) == ErrorReply(400, "Missing base64Image data")
    ensures Handle(env, req, generate).Ok() <==>
      && req.httpMethod == "POST" && ApiKey(env) != ""
      && Truthy(BodyField(req.body, "base64Image"))
      && generate(VisionRequest(req.body)).Replied?
  {
  }

  /**
   * An accepted request is answered with exactly the backend's text, or
   * with a 500 carrying the backend's error message as `details`.
   */
  lemma Outcome(env: Env, req: Request, generate: Generator)
    requires req.httpMethod == "POST" && ApiKey(env) != "" && Truthy(BodyField(req.body, "base64Image"))
    ensures generate(VisionRequest(req.body)).Replied? ==>
      Handle(env, req, generate) == JsonReply(200, JObject([("text", JString(generate(VisionRequest(req.body)).text))]))
    ensures generate(VisionRequest(req.body)).Failed? ==>
      Handle(env, req, generate) == JsonReply(500, JObject([
        ("error", JString("Image analysis failed")),
        ("details", JString(generate(VisionRequest(req.body)).message))]))
  {
  }

  /** A data URL upload reaches the backend as its own type and data, with the default prompt when none is given. */
  lemma DataUrlUpload(mimeType: string, data: string, fields: seq<(string, Json)>)
    requires AllPassable(mimeType) && CommaFree(mimeType) && CommaFree(data)
    requires Lookup(fields, "prompt").None?
    ensures var body := Some(JObject(fields + [("base64Image", JString("data:" + mimeType + ";base64," + data))]));
      && Truthy(BodyField(body, "base64Image"))
      && VisionRequest(body) == ImageRequest("gemini-2.5-flash", DefaultPrompt, data, mimeType, false)
  {
    var url := "data:" + mimeType + ";base64," + data;
    var all := fields + [("base64Image", JString(url))];
    assert Lookup(all, "base64Image") == Some(JString(url));
    assert Lookup(all, "prompt") == Lookup(fields, "prompt") by {
      assert all[..|all| - 1] == fields;
    }
    DataUrlRoundTrip(mimeType, data);
  }

  /** Raw base64 (no comma) is sent unchanged, labelled `image/jpeg`. */
  lemma RawUpload(data: string, prompt: string)
    requires data != "" && CommaFree(data) && prompt != ""
    ensures var body := Some(JObject([("base64Image", JString(data)), ("prompt", JString(prompt))]));
      && Truthy(BodyField(body, "base64Image"))
      && VisionRequest(body) == ImageRequest("gemini-2.5-flash", prompt, data, "image/jpeg", false)
  {
    var fields := [("base64Image", JString(data)), ("prompt", JString(prompt))];
    assert fields[..1] == [("base64Image", JString(data))];
    assert Lookup(fields, "base64Image") == Some(JString(data));
    NoCommaPassesThrough(data);
  }
}

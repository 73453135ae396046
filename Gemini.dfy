/**
 * The shapes app.js sends to and reads from its `/api/gemini` endpoint:
 * generation payloads on the way out, candidate responses with optional
 * grounding metadata on the way back, and the outcome of a `fetch`.
 * An absent field is `None`, as JavaScript sees `undefined`; replies are
 * taken to follow this schema, and a JSON null is read as absent.
 */
module Gemini {
  import opened Wrappers
  import opened Json

  /* ---------------- Responses ---------------- */

  datatype Part = Part(text: Option<string>)
  datatype Content = Content(parts: Option<seq<Part>>)
  datatype Web = Web(uri: Option<string>, title: Option<string>)
  datatype Chunk = Chunk(web: Option<Web>)
  datatype GroundingMetadata = GroundingMetadata(webSearchQueries: Option<seq<string>>, groundingChunks: Option<seq<Chunk>>)
  datatype Candidate = Candidate(content: Option<Content>, groundingMetadata: Option<GroundingMetadata>)
  datatype GenerateResponse = GenerateResponse(candidates: Option<seq<Candidate>>)

  /** The first candidate, when `candidates` is present and non-empty. */
  function FirstCandidate(data: GenerateResponse): Option<Candidate> {
    match data.candidates
    case Some(cs) => if |cs| > 0 then Some(cs[0]) else None
    case None => None
  }

  /** The first part, when the candidate has `content` with a non-empty `parts` list. */
  function FirstPart(c: Candidate): Option<Part> {
    match c.content
    case Some(Content(Some(parts))) => if |parts| > 0 then Some(parts[0]) else None
    case _ => None
  }

  /* ---------------- Requests ---------------- */

  datatype Tool = GoogleSearch
  datatype GenerationConfig = GenerationConfig(temperature: real, topP: int, topK: int)
  /** One element of `contents`: a role and its text parts. */
  datatype RequestContent = RequestContent(role: string, texts: seq<string>)
  datatype Payload = Payload(contents: seq<RequestContent>, config: GenerationConfig, tools: Option<seq<Tool>>)

  function PartJson(text: string): Json {
    Obj(map["text" := Str(text)])
  }

  function ContentJson(c: RequestContent): Json {
    Obj(map["role" := Str(c.role),
            "parts" := Arr(seq(|c.texts|, i requires 0 <= i < |c.texts| => PartJson(c.texts[i])))])
  }

  function ToolJson(t: Tool): Json {
    match t
    case GoogleSearch => Obj(map["google_search" := Obj(map[])])
  }

  /** The object that `JSON.stringify` serialises and the endpoint parses back. */
  function PayloadJson(p: Payload): Json {
    var members := map[
      "contents" := Arr(seq(|p.contents|, i requires 0 <= i < |p.contents| => ContentJson(p.contents[i]))),
      "generationConfig" := Obj(map["temperature" := Num(p.config.temperature),
                                    "topP" := Num(p.config.topP as real),
                                    "topK" := Num(p.config.topK as real)])];
    match p.tools
    case Some(tools) => Obj(members["tools" := Arr(seq(|tools|, i requires 0 <= i < |tools| => ToolJson(tools[i])))])
    case None => Obj(members)
  }

  /* ---------------- Fetch outcomes ---------------- */

  /** What `await response.json()` yields: a response, or a body it cannot read (it throws). */
  datatype ReplyBody = Malformed | Data(response: GenerateResponse)

  /** The scripted outcome of one `fetch('/api/gemini', …)`: it rejects, or it answers. */
  datatype Reply = NetworkFailure | Received(status: int, body: ReplyBody)
}

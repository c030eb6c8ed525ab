/**
 * The AI-tool handler `handleAiTool`: validate the body against
 * `aiToolSchema`, refuse when no API key is configured, call the upstream
 * completion API once, and map its answer to the response.
 *
 * The awaited `fetch` and `json()` are not modelled: the handler receives
 * their outcome as the input `upstream`, and says in its result which
 * request, if any, it sent. The response is what `res.status(...).json(...)`
 * is given.
 */
module ToolController {
  import opened Wrappers

  /** A JSON value, as `express.json()` and `claudeResponse.json()` produce them. */
  datatype Json =
    | JNull
    | JBool(b: bool)
    | JNumber(n: int)
    | JString(s: string)
    | JArray(items: seq<Json>)
    | JObject(fields: map<string, Json>)

  /** Why `aiToolSchema.safeParse` refused a body (the detail of zod's issue list is not modelled). */
  datatype Issue = ExpectedObject | PromptRequired | PromptNotString | PromptEmpty

  /** The configuration the handler reads: `CLAUDE_API_KEY` (default '') and `CLAUDE_API_URL`. */
  datatype Config = Config(apiKey: string, apiUrl: string)

  /** One element of the upstream `messages` array. */
  datatype Message = Message(role: string, content: string)

  /** What the handler sends upstream: the URL, the headers that vary or matter, and the JSON body. */
  datatype UpstreamRequest = UpstreamRequest(
    url: string, apiKey: string, anthropicVersion: string,
    model: string, maxTokens: int, messages: seq<Message>)

  /**
   * The outcome of the awaited `fetch` and `json()`: a reply whose body
   * parsed, or an exception with its message (network failure, body that
   * is no JSON).
   */
  datatype Upstream = Reply(status: int, statusText: string, data: Json) | Threw(message: string)

  /** The JSON body of a response: `{error, issues?, details?}` or `{success: true, ai_response}`. */
  datatype Payload = Failure(error: string, issues: Option<Issue>, details: Option<Json>) | Success(aiResponse: Json)

  /** An HTTP response: its status code and its JSON body. */
  datatype Response = Response(status: int, payload: Payload)

  /** What one request amounts to: the response, and the upstream request if one was sent. */
  datatype Exchange = Exchange(response: Response, call: Option<UpstreamRequest>)

  const InvalidData := "Dados inválidos."
  const KeyMissingMessage := "Serviço de IA indisponível. A chave de API não foi configurada."
  const InternalErrorMessage := "Erro interno do servidor."
  const UpstreamErrorPrefix := "Erro na API do Claude: "
  const Model := "claude-3-opus-20240229"
  const MaxTokens := 1024
  const AnthropicVersion := "2023-06-01"

  /** `aiToolSchema.safeParse(body)`: an object whose `prompt` is a string of at least one character. */
  function ParsePrompt(body: Json): (r: Result<string, Issue>)
    ensures r.Ok? <==> (body.JObject? && "prompt" in body.fields &&
                        body.fields["prompt"].JString? && |body.fields["prompt"].s| >= 1)
    ensures r.Ok? ==> r.value == body.fields["prompt"].s
    ensures r.Err? && body.JObject? && "prompt" in body.fields && body.fields["prompt"].JString? ==>
      r.error == PromptEmpty && body.fields["prompt"].s == ""
  {
    if !body.JObject? then Err(ExpectedObject)
    else if "prompt" !in body.fields then Err(PromptRequired)
    else match body.fields["prompt"]
      case JString(p) => if |p| >= 1 then Ok(p) else Err(PromptEmpty)
      case _ => Err(PromptNotString)
  }

  /** Whether `fetch` calls the response ok: a status in 200..299. */
  predicate IsOk(status: int) {
    200 <= status <= 299
  }

  /** The request the handler sends for a prompt: one user message holding the prompt, to the configured URL with the configured key. */
  function RequestFor(config: Config, prompt: string): (q: UpstreamRequest)
    ensures |q.messages| == 1 && q.messages[0].role == "user" && q.messages[0].content == prompt
    ensures q.url == config.apiUrl && q.apiKey == config.apiKey
    ensures q.model == Model && q.maxTokens == MaxTokens && q.anthropicVersion == AnthropicVersion
  {
    UpstreamRequest(config.apiUrl, config.apiKey, AnthropicVersion, Model, MaxTokens,
      [Message("user", prompt)])
  }

  /** Map the upstream outcome to the response (the `try` block and its `catch`). */
  function RespondTo(upstream: Upstream): (r: Response)
    ensures upstream.Reply? && IsOk(upstream.status) ==> r == Response(200, Success(upstream.data))
    ensures upstream.Reply? && !IsOk(upstream.status) ==>
      r.status == upstream.status && r.payload.Failure? && r.payload.details == Some(upstream.data) &&
      r.payload.error == UpstreamErrorPrefix + upstream.statusText && r.payload.issues == None
    ensures upstream.Threw? ==> r == Response(500, Failure(InternalErrorMessage, None, Some(JString(upstream.message))))
  {
    match upstream
    case Threw(message) => Response(500, Failure(InternalErrorMessage, None, Some(JString(message))))
    case Reply(status, statusText, data) =>
      if !IsOk(status) then Response(status, Failure(UpstreamErrorPrefix + statusText, None, Some(data)))
      else Response(200, Success(data))
  }

  /** `handleAiTool`. */
  function HandleAiTool(body: Json, config: Config, upstream: Upstream): (x: Exchange)
    ensures x.call.Some? <==> ParsePrompt(body).Ok? && config.apiKey != ""
    ensures ParsePrompt(body).Err? ==>
      x.response == Response(400, Failure(InvalidData, Some(ParsePrompt(body).error), None))
    ensures ParsePrompt(body).Ok? && config.apiKey == "" ==>
      x.response == Response(503, Failure(KeyMissingMessage, None, None))
    ensures x.call.Some? ==>
      x.call.value.messages == [Message("user", ParsePrompt(body).value)] &&
      x.call.value.model == Model && x.call.value.maxTokens == MaxTokens &&
      x.call.value.apiKey == config.apiKey && x.call.value.url == config.apiUrl &&
      x.call.value.anthropicVersion == AnthropicVersion
    ensures x.call.Some? ==> x.response == RespondTo(upstream)
  {
    match ParsePrompt(body)
    case Err(issue) => Exchange(Response(400, Failure(InvalidData, Some(issue), None)), None)
    case Ok(prompt) =>
      if config.apiKey == "" then Exchange(Response(503, Failure(KeyMissingMessage, None, None)), None)
      else Exchange(RespondTo(upstream), Some(RequestFor(config, prompt)))
  }

  /**
   * When no upstream request is sent, the upstream outcome cannot matter:
   * validation and the key check decide the response on their own.
   */
  lemma NoCallNoInfluence(body: Json, config: Config, u1: Upstream, u2: Upstream)
    requires HandleAiTool(body, config, u1).call.None?
    ensures HandleAiTool(body, config, u2) == HandleAiTool(body, config, u1)
  {
  }

  /** Validation comes first: an invalid body gets the same 400 whatever the configuration and upstream. */
  lemma ValidationFirst(body: Json, c1: Config, c2: Config, u1: Upstream, u2: Upstream)
    requires ParsePrompt(body).Err?
    ensures HandleAiTool(body, c1, u1) == HandleAiTool(body, c2, u2)
    ensures HandleAiTool(body, c1, u1).response.status == 400
  {
  }

  /** Any string prompt of at least one character passes validation, blank ones included. */
  lemma BlankPromptAccepted(p: string)
    requires |p| >= 1
    ensures ParsePrompt(JObject(map["prompt" := JString(p)])) == Ok(p)
  {
  }

  /** A missing, non-string or empty prompt, or a body that is no object, gets 400 with no upstream call. */
  lemma InvalidPromptRejected(body: Json, config: Config, upstream: Upstream)
    requires !body.JObject? || "prompt" !in body.fields || !body.fields["prompt"].JString? ||
      body.fields["prompt"].s == ""
    ensures HandleAiTool(body, config, upstream).response.status == 400
    ensures HandleAiTool(body, config, upstream).response.payload.error == InvalidData
    ensures HandleAiTool(body, config, upstream).call.None?
  {
  }
}

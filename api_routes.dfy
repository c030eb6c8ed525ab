/**
 * The API router: each POST route is guarded by `checkToolStatus` for its
 * own tool, which lets the request through to the handler only when the
 * tool's entry in the application's status map says `'online'`.
 */
module ApiRoutes {
  import opened Wrappers
  import opened ToolController

  /** The three tools, `'word-count' | 'generate-uuid' | 'ai-tool'`. */
  datatype Tool = WordCount | GenerateUuid | AiTool

  /** The name a tool goes by in the status map and in messages. */
  function ToolName(tool: Tool): string {
    match tool
    case WordCount => "word-count"
    case GenerateUuid => "generate-uuid"
    case AiTool => "ai-tool"
  }

  /** An entry of the status map, `{ status: ... }`; its `status` may be any string, or missing. */
  datatype ToolEntry = ToolEntry(status: Option<string>)

  /** The map stored under `'toolStatus'`: tool name to entry, any entry possibly missing. */
  type ToolStatus = map<string, ToolEntry>

  /** What the middleware does: call `next()`, or answer with an error response. */
  datatype Gate = Next | Rejected(response: Response)

  /** `toolStatus[toolName]?.status === 'online'`. */
  predicate IsOnline(toolStatus: ToolStatus, name: string) {
    name in toolStatus && toolStatus[name].status == Some("online")
  }

  /** The 503 message, `Serviço '${toolName}' temporariamente indisponível.`. */
  function UnavailableMessage(name: string): string {
    "Serviço '" + name + "' temporariamente indisponível."
  }

  /** `s` occurs in `text` at position `i`. */
  predicate OccursAt(text: string, s: string, i: nat) {
    i + |s| <= |text| && text[i..i + |s|] == s
  }

  /** `s` occurs in `text` as a contiguous piece. */
  ghost predicate Mentions(text: string, s: string) {
    exists i: nat :: OccursAt(text, s, i)
  }

  /** The middleware `checkToolStatus(tool)` applied to a request. */
  function CheckToolStatus(toolStatus: ToolStatus, tool: Tool): (g: Gate)
    ensures g == Next <==> IsOnline(toolStatus, ToolName(tool))
    ensures g.Rejected? ==> (g.response.status == 503 && g.response.payload.Failure? &&
                             Mentions(g.response.payload.error, ToolName(tool)))
  {
    if IsOnline(toolStatus, ToolName(tool)) then Next
    else
      var name := ToolName(tool);
      var msg := UnavailableMessage(name);
      assert OccursAt(msg, name, |"Serviço '"|);
      Rejected(Response(503, Failure(msg, None, None)))
  }

  /** The gate reads only its own tool's entry: changing or dropping any other entry changes nothing. */
  lemma GateReadsOwnEntry(s1: ToolStatus, s2: ToolStatus, tool: Tool)
    requires ToolName(tool) in s1 <==> ToolName(tool) in s2
    requires ToolName(tool) in s1 ==> s1[ToolName(tool)] == s2[ToolName(tool)]
    ensures CheckToolStatus(s1, tool) == CheckToolStatus(s2, tool)
  {
  }

  /**
   * A character as a case-insensitive regular expression compares it:
   * ASCII letters fold to upper case. The route names are ASCII, and such a
   * regular expression never folds a non-ASCII character onto an ASCII one
   * (section 22.2.2.7.3 of ECMA-262), so folding ASCII letters alone decides
   * a match against them.
   */
  function AsciiUpper(c: char): char {
    if 'a' <= c <= 'z' then (c as int - 32) as char else c
  }

  /** `a` and `b` are equal up to the case of ASCII letters. */
  predicate SameIgnoringCase(a: string, b: string) {
    |a| == |b| && forall i :: 0 <= i < |a| ==> AsciiUpper(a[i]) == AsciiUpper(b[i])
  }

  /**
   * Whether a request path matches a route path under Express's default
   * router options: case-insensitive, and one trailing slash allowed.
   */
  predicate RouteMatches(path: string, route: string)
    ensures RouteMatches(path, route) ==> |path| == |route| || |path| == |route| + 1
  {
    SameIgnoringCase(path, route) || SameIgnoringCase(path, route + "/")
  }

  /** The route bindings `router.post(path, checkToolStatus(tool), handler)`: the tool whose route a path matches. */
  function RouteTool(path: string): (r: Option<Tool>)
    ensures forall tool :: r == Some(tool) <==> RouteMatches(path, "/" + ToolName(tool))
  {
    assert "/" + ToolName(WordCount) == "/word-count";
    assert "/" + ToolName(GenerateUuid) == "/generate-uuid";
    assert "/" + ToolName(AiTool) == "/ai-tool";
    if RouteMatches(path, "/word-count") then Some(WordCount)
    else if RouteMatches(path, "/generate-uuid") then Some(GenerateUuid)
    else if RouteMatches(path, "/ai-tool") then Some(AiTool)
    else None
  }

  /**
   * Express's default matching at work: case and one trailing slash do not
   * matter, but a second slash, a missing slash or another name does.
   */
  lemma {:induction false} RouteToolExamples()
    ensures RouteTool("/word-count") == Some(WordCount)
    ensures RouteTool("/Word-Count") == Some(WordCount)
    ensures RouteTool("/GENERATE-UUID/") == Some(GenerateUuid)
    ensures RouteTool("/ai-tool/") == Some(AiTool)
    ensures RouteTool("/ai-tool//") == None
    ensures RouteTool("word-count") == None
    ensures RouteTool("/word_count") == None
  {
    assert SameIgnoringCase("/Word-Count", "/word-count");
    assert SameIgnoringCase("/GENERATE-UUID/", "/generate-uuid" + "/");
    assert SameIgnoringCase("/ai-tool/", "/ai-tool" + "/");
    assert AsciiUpper("/word_count"[5]) != AsciiUpper("/word-count"[5]);
    assert !SameIgnoringCase("/word_count", "/word-count");
  }

  /** The status map set at startup: every tool has an entry, and all but the AI tool are online. */
  function StartupToolStatus(): (m: ToolStatus)
    ensures forall tool :: ToolName(tool) in m
    ensures forall tool :: IsOnline(m, ToolName(tool)) <==> tool != AiTool
  {
    map["word-count" := ToolEntry(Some("online")),
        "generate-uuid" := ToolEntry(Some("online")),
        "ai-tool" := ToolEntry(Some("offline"))]
  }

  /** What a POST under the router leads to. */
  datatype Outcome =
    | NoRoute                      // no route of this router matches
    | Answered(response: Response) // the gate refused the request
    | Handled(tool: Tool)          // the tool's handler runs

  /** `router.post(...)` for a path: the gate of the bound tool, then its handler. */
  function Dispatch(toolStatus: ToolStatus, path: string): (o: Outcome)
    ensures o.Handled? <==> RouteTool(path).Some? && IsOnline(toolStatus, ToolName(RouteTool(path).value))
    ensures o.Handled? ==> RouteTool(path) == Some(o.tool)
    ensures o.NoRoute? <==> RouteTool(path).None?
  {
    match RouteTool(path)
    case None => NoRoute
    case Some(tool) =>
      match CheckToolStatus(toolStatus, tool)
      case Next => Handled(tool)
      case Rejected(response) => Answered(response)
  }

  /** `POST /ai-tool`: the gate, then `handleAiTool`. */
  function PostAiTool(toolStatus: ToolStatus, body: Json, config: Config, upstream: Upstream): (x: Exchange)
    ensures !IsOnline(toolStatus, "ai-tool") ==> x.call.None? && x.response.status == 503
    ensures IsOnline(toolStatus, "ai-tool") ==> x == HandleAiTool(body, config, upstream)
  {
    match CheckToolStatus(toolStatus, AiTool)
    case Next => HandleAiTool(body, config, upstream)
    case Rejected(response) => Exchange(response, None)
  }

  /**
   * With the startup map, word counting and UUID generation reach their
   * handlers, while every AI-tool request gets 503 and sends nothing
   * upstream, whatever the body and the key.
   */
  lemma StartupGating(body: Json, config: Config, upstream: Upstream)
    ensures Dispatch(StartupToolStatus(), "/word-count") == Handled(WordCount)
    ensures Dispatch(StartupToolStatus(), "/generate-uuid") == Handled(GenerateUuid)
    ensures Dispatch(StartupToolStatus(), "/ai-tool").Answered?
    ensures Dispatch(StartupToolStatus(), "/ai-tool").response.status == 503
    ensures PostAiTool(StartupToolStatus(), body, config, upstream).call.None?
    ensures PostAiTool(StartupToolStatus(), body, config, upstream).response.status == 503
  {
    assert !IsOnline(StartupToolStatus(), "ai-tool");
  }
}

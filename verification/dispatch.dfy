/** The two request surfaces: the JSON-RPC shaped `/mcp` tool call
    (`mcp_endpoint`) and the direct `/scrape` endpoint (`scrape_profile`). */
module Dispatch {
  import opened Wrappers
  import opened Scraper

  const ToolsCall := "tools/call"
  const ToolName := "get_person_profile"
  const UrlRequired := "profile_url required"

  /** `params["arguments"]`: the key is absent (the source then uses `{}`),
      its value is an object whose `profile_url` is absent or a string, or
      its value is something without a `get` method (`null`, a string, a
      list, a number), named by its Python type. */
  datatype Arguments =
    | NoArguments
    | ArgumentsObject(profileUrl: Option<string>)
    | NotAnObject(typeName: string)

  /** `params`: the `name` entry (absent, or a string) and `arguments`. */
  datatype Params = Params(name: Option<string>, arguments: Arguments)

  datatype RpcRequest = RpcRequest(id: int, methodName: string, params: Params)

  /** The one member of the response besides `jsonrpc` and `id`: `result`,
      or `error`. The error object is emitted as `{"message": ...}` only,
      without the `code` member that section 5.1 of the JSON-RPC 2.0
      specification requires. */
  datatype Reply = ResultReply(profile: Profile) | ErrorReply(message: string)

  datatype RpcResponse = RpcResponse(jsonrpc: string, id: int, reply: Reply)

  /** What the scrape sees when it runs: the configured cookie and what the
      browser would yield. */
  datatype Backend = Backend(cookie: string, session: Session)

  /** The direct endpoint's answer: `{"success": true, "data": ...}`, or an
      `HTTPException` with a status code and `detail`. */
  datatype DirectResponse = Ok(success: bool, data: Profile) | HttpError(status: int, detail: string)

  /** Python's `str()` of the `name` entry as it appears in an f-string. */
  function Shown(name: Option<string>): string {
    match name
    case None => "None"
    case Some(s) => s
  }

  /** The text of the AttributeError Python raises for `x.get` when `x` has
      type `typeName`. */
  function NoAttributeGet(typeName: string): string {
    "'" + typeName + "' object has no attribute 'get'"
  }

  /** The profile URL a request carries when it passes every check before
      the scrape (`not profile_url` rejects both absence and `""`). */
  predicate ReachesScrape(req: RpcRequest) {
    && req.methodName == ToolsCall
    && req.params.name == Some(ToolName)
    && req.params.arguments.ArgumentsObject?
    && req.params.arguments.profileUrl.Some?
    && req.params.arguments.profileUrl.value != ""
  }

  function Target(req: RpcRequest): string
    requires ReachesScrape(req)
  {
    req.params.arguments.profileUrl.value
  }

  /** The reply for a scrape outcome: the profile, or the exception's text as
      caught by the outer `except`. */
  function ReplyOf(outcome: Result<Profile>): (r: Reply)
    ensures r.ResultReply? <==> outcome.Success?
    ensures r.ResultReply? ==> r.profile == outcome.value
    ensures r.ErrorReply? ==> r.message == outcome.error
  {
    match outcome
    case Success(p) => ResultReply(p)
    case Failure(e) => ErrorReply(e)
  }

  /** `mcp_endpoint`. */
  function HandleRpc(req: RpcRequest, backend: Backend): (resp: RpcResponse)
    ensures resp.jsonrpc == "2.0" && resp.id == req.id
    ensures req.methodName != ToolsCall ==> resp.reply == ErrorReply("Unknown method: " + req.methodName)
    ensures (req.methodName == ToolsCall && req.params.name != Some(ToolName))
              ==> resp.reply == ErrorReply("Unknown tool: " + Shown(req.params.name))
    ensures (&& req.methodName == ToolsCall && req.params.name == Some(ToolName)
             && !req.params.arguments.NotAnObject? && !ReachesScrape(req))
              ==> resp.reply == ErrorReply(UrlRequired)
    ensures (&& req.methodName == ToolsCall && req.params.name == Some(ToolName)
             && req.params.arguments.NotAnObject?)
              ==> resp.reply == ErrorReply(NoAttributeGet(req.params.arguments.typeName))
    ensures resp.reply.ResultReply? <==> ReachesScrape(req) && backend.cookie != "" && backend.session.Ready?
    ensures resp.reply.ResultReply? ==> resp.reply.profile.url == Target(req) && WellFormed(resp.reply.profile)
  {
    var reply :=
      if req.methodName != ToolsCall then
        ErrorReply("Unknown method: " + req.methodName)
      else if req.params.name != Some(ToolName) then
        ErrorReply("Unknown tool: " + Shown(req.params.name))
      else (
        match req.params.arguments
        case NotAnObject(typeName) =>
          // `arguments.get` raises AttributeError, caught by the outer handler
          ErrorReply(NoAttributeGet(typeName))
        case NoArguments => ErrorReply(UrlRequired)
        case ArgumentsObject(url) =>
          if url.None? || url.value == "" then ErrorReply(UrlRequired)
          else ReplyOf(Scrape(backend.cookie, url.value, backend.session)));
    RpcResponse("2.0", req.id, reply)
  }

  /** `scrape_profile`: success is wrapped, any exception becomes status 500
      with its text as `detail`. */
  function ScrapeProfile(url: string, backend: Backend): (r: DirectResponse)
    ensures r.Ok? <==> backend.cookie != "" && backend.session.Ready?
    ensures r.Ok? ==> r.success && r.data.url == url && WellFormed(r.data)
    ensures r.HttpError? ==> r.status == 500
    ensures backend.cookie == "" ==> r == HttpError(500, CookieMissing)
    ensures var s := Scrape(backend.cookie, url, backend.session);
      && (r.Ok? ==> r.data == s.value)
      && (r.HttpError? ==> r.detail == s.error)
  {
    match Scrape(backend.cookie, url, backend.session)
    case Success(p) => Ok(true, p)
    case Failure(e) => HttpError(500, e)
  }

  /** A request rejected before the scrape never reaches it: its response is
      the same whatever the cookie and the browser would have done. */
  lemma RejectedWithoutScrape(req: RpcRequest, b1: Backend, b2: Backend)
    requires !ReachesScrape(req)
    ensures HandleRpc(req, b1) == HandleRpc(req, b2)
    ensures HandleRpc(req, b1).reply.ErrorReply?
  {
  }

  /** A request that passes every check carries the scrape's outcome:
      the profile as `result`, or the exception text as `error.message`. */
  lemma ScrapeOutcomeCarried(req: RpcRequest, backend: Backend)
    requires ReachesScrape(req)
    ensures HandleRpc(req, backend).reply == ReplyOf(Scrape(backend.cookie, Target(req), backend.session))
  {
  }

  /** The two surfaces agree: the tool call's `result` is the direct
      endpoint's `data`, and its `error.message` is the direct endpoint's
      `detail`. */
  lemma SurfacesAgree(req: RpcRequest, backend: Backend)
    requires ReachesScrape(req)
    ensures var rpc := HandleRpc(req, backend).reply;
            var direct := ScrapeProfile(Target(req), backend);
      && (rpc.ResultReply? <==> direct.Ok?)
      && (rpc.ResultReply? ==> rpc.profile == direct.data)
      && (rpc.ErrorReply? ==> rpc.message == direct.detail)
  {
  }
}

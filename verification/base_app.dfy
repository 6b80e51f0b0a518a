/** The shared application base: constructor checks, the header stage that
    runs before routing, and the three terminal stages every handler chain
    ends in (`empty`, `error`, `final`). */
module BaseApp {
  import opened Wrappers
  import opened Values
  import opened Errors
  import opened Http

  /** The constructor's options object: whether a router was given, the
      custom `headers` list and the `cors` setting, each possibly absent. */
  datatype Options = Options(router: bool, headers: Option<seq<Header>>, cors: Option<Value>)

  /** The configuration a constructed app holds. */
  datatype Config = Config(headers: seq<Header>, cors: Value)

  /** `new BaseApp(options)`: missing options or router throw; `headers`
      defaults to `[]` (an array is truthy even when empty) and a falsy
      `cors` becomes `false`. */
  function New(o: Option<Options>): (r: Result<Config, Error>)
    ensures o.None? ==> r == Failure(Plain("APP_OPTIONS_REQUIRED"))
    ensures o.Some? && !o.value.router ==> r == Failure(Plain("APP_ROUTER_REQUIRED"))
    ensures r.Success? <==> o.Some? && o.value.router
    ensures r.Success? ==> r.value.headers == o.value.headers.GetOr([])
    ensures r.Success? && Truthy(o.value.cors) ==> r.value.cors == o.value.cors.value
    ensures r.Success? && !Truthy(o.value.cors) ==> r.value.cors == VBool(false)
  {
    if o.None? then Failure(Plain("APP_OPTIONS_REQUIRED"))
    else if !o.value.router then Failure(Plain("APP_ROUTER_REQUIRED"))
    else
      var cors := if Truthy(o.value.cors) then o.value.cors.value else VBool(false);
      Success(Config(o.value.headers.GetOr([]), cors))
  }

  /** The four CORS headers emitted when CORS is on. */
  const CorsHeaders: seq<Header> := [
    Header("Access-Control-Allow-Methods", "OPTIONS,GET,HEAD,POST,PUT,PATCH,DELETE"),
    Header("Access-Control-Allow-Headers", "X-Requested-With,Content-Type"),
    Header("Access-Control-Allow-Credentials", "true"),
    Header("Access-Control-Max-Age", "86400")
  ]

  /** CORS is on only for the exact values `true` and `'dev'`. */
  predicate CorsOn(cors: Value) {
    cors == VBool(true) || cors == VStr("dev")
  }

  /** The value `res.header` stores for the request's `origin` header
      (`String(undefined)` when the request has none). */
  function OriginText(origin: Option<string>): string {
    match origin
    case Some(o) => o
    case None => "undefined"
  }

  /** The headers `setHeaders` puts on the response, in order. */
  function SetHeaders(c: Config, origin: Option<string>): (hs: seq<Header>)
    ensures |hs| >= |c.headers| && hs[|hs| - |c.headers|..] == c.headers
    ensures !CorsOn(c.cors) ==> hs == c.headers
    ensures CorsOn(c.cors) ==> |hs| >= 4 && hs[..4] == CorsHeaders
    ensures c.cors == VStr("dev") <==>
              (exists i :: 0 <= i < |hs| - |c.headers| && hs[i].name == "Access-Control-Allow-Origin")
    ensures c.cors == VStr("dev") ==>
              |hs| >= 6 && hs[4] == Header("Access-Control-Allow-Origin", OriginText(origin))
              && hs[5] == Header("Vary", "Origin")
  {
    var cors := if CorsOn(c.cors) then CorsHeaders else [];
    var dev := if c.cors == VStr("dev")
      then [Header("Access-Control-Allow-Origin", OriginText(origin)), Header("Vary", "Origin")]
      else [];
    assert forall i :: 0 <= i < |cors| ==> cors[i].name != "Access-Control-Allow-Origin";
    var hs := cors + dev + c.headers;
    assert hs[|hs| - |c.headers|..] == c.headers;
    assert c.cors == VStr("dev") ==> hs[4] == dev[0];
    hs
  }

  /** `error`: the translator every failed stage hands its error to. A bare
      401 for the `UNAUTHORIZED` message or a 401 status, a bare 404 for
      the `NOT_FOUND` message or a 404 status, and an opaque 500 for
      everything else (the error itself is only logged). */
  function ErrorReply(e: Error): (r: Reply)
    ensures r.status == 401 <==> e.message == "UNAUTHORIZED" || e.status == Some(401)
    ensures r.status == 404 <==>
              !(e.message == "UNAUTHORIZED" || e.status == Some(401))
              && (e.message == "NOT_FOUND" || e.status == Some(404))
    ensures r.status == 401 || r.status == 404 ==> r == Status(r.status)
    ensures r.status != 401 && r.status != 404 ==> r == InternalError
  {
    if e.message == "UNAUTHORIZED" || e.status == Some(401) then Status(401)
    else if e.message == "NOT_FOUND" || e.status == Some(404) then Status(404)
    else InternalError
  }

  /** `empty`: 204 with no body when the previous stage succeeded,
      otherwise the error's translation. */
  function Empty(err: Option<Error>): (r: Reply)
    ensures err.None? ==> r == Status(204)
    ensures err.Some? ==> r == ErrorReply(err.value) && r.status != 204
  {
    match err
    case None => Status(204)
    case Some(e) => ErrorReply(e)
  }

  /** `options`: the OPTIONS verb answers 204. */
  function OptionsReply(): (r: Reply)
    ensures r == Status(204)
  {
    Empty(None)
  }

  /** `final`: a bare 404, unless a reply has already been sent, in which
      case nothing more is written. */
  function Final(headersSent: bool): (r: Option<Reply>)
    ensures r.Some? <==> !headersSent
    ensures r.Some? ==> r.value == Status(404)
  {
    if headersSent then None else Some(Status(404))
  }

  /** Every `UnauthorizedError`, whatever its message, is a bare 401. */
  lemma UnauthorizedAnswers401(a: MessageArg)
    ensures ErrorReply(Make(Unauthorized, a)) == Status(401)
  {
  }

  /** A `NotFoundError` is a bare 404 unless its message is the
      `UNAUTHORIZED` code, which the 401 test sees first. */
  lemma NotFoundAnswers404(a: MessageArg)
    requires ArgText(a) != "UNAUTHORIZED"
    ensures ErrorReply(Make(NotFound, a)) == Status(404)
  {
  }

  /** There is no 403 or 409 case: a `ForbiddenError` or `ConflictError`
      surfaces as the opaque 500 unless its message happens to be one of
      the two recognised codes. */
  lemma ForbiddenAndConflictAnswer500(k: Kind, a: MessageArg)
    requires k == Forbidden || k == Conflict
    requires ArgText(a) != "UNAUTHORIZED" && ArgText(a) != "NOT_FOUND"
    ensures ErrorReply(Make(k, a)) == InternalError
  {
  }
}

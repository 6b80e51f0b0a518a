/** The routers: a table from HTTP method to the app stage that serves it,
    filled by `build`, and `handle`, which looks the request's method up
    and falls back to the app's `final`. Together with each app's `handle`
    (headers first, then the router) this gives one request end to end. */
module Routers {
  import opened Wrappers
  import opened Values
  import opened Http
  import opened MockDatabase
  import BaseApp
  import ResourceApp
  import SessionsApp

  // ---------------------------------------------------------------------
  // the resource router

  /** The stages the resource router maps methods to. */
  datatype ResourceRoute = CreateRoute | ReplaceRoute | UpdateRoute | ListOrShowRoute | DeleteRoute | OptionsRoute

  /** A resource router: whether `build` attached an app, and its table. */
  datatype ResourceRouter = ResourceRouter(built: bool, methods: map<string, ResourceRoute>)

  /** A newly constructed router: no app and no routes. */
  const FreshResourceRouter: ResourceRouter := ResourceRouter(false, map[])

  /** `build(app)`: attach the app and map the six methods. */
  function BuildResourceRouter(r: ResourceRouter): (r': ResourceRouter)
    ensures r'.built
    ensures r'.methods.Keys == r.methods.Keys + {"POST", "PUT", "PATCH", "GET", "DELETE", "OPTIONS"}
    ensures forall m :: m in r.methods && m !in {"POST", "PUT", "PATCH", "GET", "DELETE", "OPTIONS"} ==>
              r'.methods[m] == r.methods[m]
  {
    ResourceRouter(true, r.methods["POST" := CreateRoute]["PUT" := ReplaceRoute]["PATCH" := UpdateRoute]
                                   ["GET" := ListOrShowRoute]["DELETE" := DeleteRoute]["OPTIONS" := OptionsRoute])
  }

  /** What the resource router's `handle` ends up calling. */
  datatype Dispatch<R> = Call(route: R) | AppFinal | NoApp

  /** `BaseRouter.handle`: the mapped stage, else `app.final`; with no app
      attached the fallback itself raises. */
  function ResourceDispatch(r: ResourceRouter, verb: string): (d: Dispatch<ResourceRoute>)
    ensures verb in r.methods <==> d.Call?
    ensures d.Call? ==> d.route == r.methods[verb]
    ensures d.NoApp? <==> verb !in r.methods && !r.built
  {
    if verb in r.methods then Call(r.methods[verb]) else if r.built then AppFinal else NoApp
  }

  /** The app stage a route reaches once `setResourceId` has run. */
  datatype Stage = CreateStage | ReplaceStage | UpdateStage | ShowStage | ListStage | DeleteStage | OptionsStage | FinalStage

  /** The router's wrappers around the app: PUT, PATCH and DELETE need a
      truthy (non-empty) resource id and otherwise go to `final`; GET
      shows with one and lists without. */
  function StageOf(route: ResourceRoute, id: Option<string>): (st: Stage)
    ensures route.CreateRoute? <==> st.CreateStage?
    ensures route.OptionsRoute? <==> st.OptionsStage?
    ensures st.ReplaceStage? || st.UpdateStage? || st.ShowStage? || st.DeleteStage? ==> id.Some? && id.value != ""
    ensures st.FinalStage? <==> (route.ReplaceRoute? || route.UpdateRoute? || route.DeleteRoute?) && (id.None? || id == Some(""))
    ensures route.ListOrShowRoute? ==> (st.ShowStage? <==> id.Some? && id.value != "") && (st.ListStage? || st.ShowStage?)
  {
    var truthy := id.Some? && id.value != "";
    match route
    case CreateRoute => CreateStage
    case OptionsRoute => OptionsStage
    case ReplaceRoute => if truthy then ReplaceStage else FinalStage
    case UpdateRoute => if truthy then UpdateStage else FinalStage
    case DeleteRoute => if truthy then DeleteStage else FinalStage
    case ListOrShowRoute => if truthy then ShowStage else ListStage
  }

  /** Whether a route runs `setResourceId` first (all but POST and
      OPTIONS). */
  predicate SetsResourceId(route: ResourceRoute) {
    !route.CreateRoute? && !route.OptionsRoute?
  }

  /** One request to a resource app: the method, the URL, the origin
      header and the request the stages see (its `resourceId` is what the
      response locals held before routing). */
  datatype ResourceCall = ResourceCall(verb: string, url: Option<string>, origin: Option<string>, req: ResourceApp.Request)

  /** What the request did: the store afterwards and the outcome. */
  datatype Served = Served(store: Store, outcome: Outcome)

  /** Run a stage of the resource app. */
  function RunStage(c: ResourceApp.Config, s: Store, st: Stage, req: ResourceApp.Request): ResourceApp.Response {
    match st
    case CreateStage => ResourceApp.Create(c, s, req)
    case ReplaceStage => ResourceApp.Replace(c, s, req, false)
    case UpdateStage => ResourceApp.Replace(c, s, req, true)
    case ShowStage => ResourceApp.Show(c, s, req)
    case ListStage => ResourceApp.List(c, s, req)
    case DeleteStage => ResourceApp.Delete(c, s, req)
    case OptionsStage => ResourceApp.Response(s, BaseApp.OptionsReply())
    case FinalStage => ResourceApp.Response(s, BaseApp.Final(false).value)
  }

  /** `ResourceApp.handle` with the app's stages bound: the base app's
      headers, then the router. */
  function ServeResource(base: BaseApp.Config, c: ResourceApp.Config, r: ResourceRouter, s: Store, call: ResourceCall): (sv: Served)
    ensures sv.outcome.Replied? ==>
              |sv.outcome.reply.headers| >= |BaseApp.SetHeaders(base, call.origin)|
              && sv.outcome.reply.headers[..|BaseApp.SetHeaders(base, call.origin)|] == BaseApp.SetHeaders(base, call.origin)
    ensures sv.outcome.Threw? <==> call.verb !in r.methods && !r.built
  {
    var hs := BaseApp.SetHeaders(base, call.origin);
    match ResourceDispatch(r, call.verb)
    case NoApp => Served(s, Threw("TypeError"))
    case AppFinal => Served(s, Replied(WithHeaders(hs, BaseApp.Final(false).value)))
    case Call(route) =>
      var id := if SetsResourceId(route) then ResourceApp.SetResourceId(call.url, call.req.resourceId) else call.req.resourceId;
      var resp := RunStage(c, s, StageOf(route, id), call.req.(resourceId := id));
      Served(resp.store, Replied(WithHeaders(hs, resp.reply)))
  }

  /** The six methods `build` maps. */
  predicate Mapped(verb: string) {
    verb in {"POST", "PUT", "PATCH", "GET", "DELETE", "OPTIONS"}
  }

  /** A mapped method runs its route's stage, after `setResourceId` where
      the route asks for it, and its reply follows the app's headers. */
  lemma ServeMapped(base: BaseApp.Config, c: ResourceApp.Config, r: ResourceRouter, s: Store, call: ResourceCall, route: ResourceRoute)
    requires call.verb in r.methods && r.methods[call.verb] == route
    ensures var id := if SetsResourceId(route) then ResourceApp.SetResourceId(call.url, call.req.resourceId) else call.req.resourceId;
            var resp := RunStage(c, s, StageOf(route, id), call.req.(resourceId := id));
            ServeResource(base, c, r, s, call) == Served(resp.store, Replied(WithHeaders(BaseApp.SetHeaders(base, call.origin), resp.reply)))
  {
  }

  /** A method the built router does not map (HEAD, say) is a bare 404
      after the app's headers, and the store is untouched. */
  lemma UnmappedMethodIs404(base: BaseApp.Config, c: ResourceApp.Config, s: Store, call: ResourceCall)
    requires !Mapped(call.verb)
    ensures var sv := ServeResource(base, c, BuildResourceRouter(FreshResourceRouter), s, call);
            sv.store == s && sv.outcome == Replied(WithHeaders(BaseApp.SetHeaders(base, call.origin), Status(404)))
  {
  }

  /** Before `build`, every request raises: no route and no app. */
  lemma UnbuiltRouterRaises(base: BaseApp.Config, c: ResourceApp.Config, s: Store, call: ResourceCall)
    ensures ServeResource(base, c, FreshResourceRouter, s, call) == Served(s, Threw("TypeError"))
  {
  }

  /** A write without a resource id in the path (no URL, `""` or only
      slashes) on a fresh request is a bare 404 that touches nothing. */
  lemma WriteWithoutIdIs404(base: BaseApp.Config, c: ResourceApp.Config, s: Store, call: ResourceCall)
    requires call.verb in {"PUT", "PATCH", "DELETE"}
    requires call.req.resourceId.None?
    requires call.url.None? || ResourceApp.StripSlashes(call.url.value) == ""
    ensures var sv := ServeResource(base, c, BuildResourceRouter(FreshResourceRouter), s, call);
            sv.store == s && sv.outcome == Replied(WithHeaders(BaseApp.SetHeaders(base, call.origin), Status(404)))
  {
    var r := BuildResourceRouter(FreshResourceRouter);
    assert call.verb in r.methods;
    var route := r.methods[call.verb];
    assert route.ReplaceRoute? || route.UpdateRoute? || route.DeleteRoute?;
    ServeMapped(base, c, r, s, call, route);
    var id := ResourceApp.SetResourceId(call.url, call.req.resourceId);
    assert id.None? || id == Some("");
    assert StageOf(route, id) == FinalStage;
  }

  /** GET with an id (from the path, or already on the request) is the
      show stage for that id. */
  lemma GetWithIdShows(base: BaseApp.Config, c: ResourceApp.Config, s: Store, call: ResourceCall)
    requires call.verb == "GET"
    requires var id := ResourceApp.SetResourceId(call.url, call.req.resourceId); id.Some? && id.value != ""
    ensures var sv := ServeResource(base, c, BuildResourceRouter(FreshResourceRouter), s, call);
            var resp := ResourceApp.Show(c, s, call.req.(resourceId := ResourceApp.SetResourceId(call.url, call.req.resourceId)));
            sv == Served(resp.store, Replied(WithHeaders(BaseApp.SetHeaders(base, call.origin), resp.reply)))
  {
    var r := BuildResourceRouter(FreshResourceRouter);
    var id := ResourceApp.SetResourceId(call.url, call.req.resourceId);
    ServeMapped(base, c, r, s, call, ListOrShowRoute);
    assert StageOf(ListOrShowRoute, id) == ShowStage;
  }

  /** GET without an id (a fresh request with no URL, `""` or only
      slashes) is the list stage. */
  lemma GetWithoutIdLists(base: BaseApp.Config, c: ResourceApp.Config, s: Store, call: ResourceCall)
    requires call.verb == "GET"
    requires call.req.resourceId.None?
    requires call.url.None? || ResourceApp.StripSlashes(call.url.value) == ""
    ensures var sv := ServeResource(base, c, BuildResourceRouter(FreshResourceRouter), s, call);
            var resp := ResourceApp.List(c, s, call.req);
            sv == Served(resp.store, Replied(WithHeaders(BaseApp.SetHeaders(base, call.origin), resp.reply)))
  {
    var r := BuildResourceRouter(FreshResourceRouter);
    assert ResourceDispatch(r, call.verb) == Call(ListOrShowRoute);
  }

  /** OPTIONS through the built router: 204 after the app's headers. */
  lemma ResourceOptionsIs204(base: BaseApp.Config, c: ResourceApp.Config, s: Store, call: ResourceCall)
    requires call.verb == "OPTIONS"
    ensures ServeResource(base, c, BuildResourceRouter(FreshResourceRouter), s, call)
            == Served(s, Replied(WithHeaders(BaseApp.SetHeaders(base, call.origin), Status(204))))
  {
    var r := BuildResourceRouter(FreshResourceRouter);
    assert call.verb in r.methods && r.methods[call.verb] == OptionsRoute;
  }

  // ---------------------------------------------------------------------
  // the resource app as shipped: unbound stages

  /** The route the request's method reaches in the app, once
      `setResourceId` has run: every stage but `final`. */
  predicate ReachesStage(r: ResourceRouter, call: ResourceCall) {
    call.verb in r.methods
    && var route := r.methods[call.verb];
       var id := if SetsResourceId(route) then ResourceApp.SetResourceId(call.url, call.req.resourceId) else call.req.resourceId;
       StageOf(route, id) != FinalStage
  }

  /** The store a stage leaves when it raises unbound: show, replace,
      update and delete first query the store by id, which registers the
      table, and raise in the continuation the store calls back; create
      and options raise at their first use of `this`, and list in the
      continuation the policy calls back, before any query. */
  function UnboundStore(c: ResourceApp.Config, s: Store, st: Stage): (s': Store)
    ensures SetTable(s', s, c.table)
  {
    if st.ReplaceStage? || st.UpdateStage? || st.ShowStage? || st.DeleteStage? then GetTable(s, c.table) else s
  }

  /** The store is `s`, or `s` with `name` registered. */
  predicate SetTable(s': Store, s: Store, name: string) {
    s' == s || s' == GetTable(s, name)
  }

  /** `ResourceApp.handle` as shipped. The app's `bindMethods` is never
      called, so the router maps the unbound `app.create` and
      `app.options`, and every stage hands its continuation on unbound.
      Whatever reaches an app stage raises; only `final`, which the router
      calls as a method of the app, answers. */
  function ServeResourceAsWritten(base: BaseApp.Config, c: ResourceApp.Config, r: ResourceRouter, s: Store, call: ResourceCall): (sv: Served)
    ensures SetTable(sv.store, s, c.table)
    ensures sv.outcome.Replied? ==>
              sv.store == s && sv.outcome == Replied(WithHeaders(BaseApp.SetHeaders(base, call.origin), Status(404)))
    ensures sv.outcome.Threw? <==> ReachesStage(r, call) || (call.verb !in r.methods && !r.built)
  {
    var hs := BaseApp.SetHeaders(base, call.origin);
    match ResourceDispatch(r, call.verb)
    case NoApp => Served(s, Threw("TypeError"))
    case AppFinal => Served(s, Replied(WithHeaders(hs, BaseApp.Final(false).value)))
    case Call(route) =>
      var id := if SetsResourceId(route) then ResourceApp.SetResourceId(call.url, call.req.resourceId) else call.req.resourceId;
      var st := StageOf(route, id);
      if st.FinalStage? then Served(s, Replied(WithHeaders(hs, BaseApp.Final(false).value)))
      else Served(UnboundStore(c, s, st), Threw("TypeError"))
  }

  /** The shipped app and the bound one part exactly where a request
      reaches an app stage: there the shipped app raises and the bound
      one answers; everywhere else they agree. */
  lemma AsWrittenPartsAtStages(base: BaseApp.Config, c: ResourceApp.Config, r: ResourceRouter, s: Store, call: ResourceCall)
    ensures ServeResourceAsWritten(base, c, r, s, call) == ServeResource(base, c, r, s, call) <==> !ReachesStage(r, call)
  {
  }

  /** On the built router, as shipped, OPTIONS and POST raise without
      touching the store, where the bound app answers both (OPTIONS with
      204, by ResourceOptionsIs204). */
  lemma UnboundStagesRaise(base: BaseApp.Config, c: ResourceApp.Config, s: Store, call: ResourceCall)
    requires call.verb == "OPTIONS" || call.verb == "POST"
    ensures ServeResourceAsWritten(base, c, BuildResourceRouter(FreshResourceRouter), s, call) == Served(s, Threw("TypeError"))
    ensures ServeResource(base, c, BuildResourceRouter(FreshResourceRouter), s, call).outcome.Replied?
  {
  }

  // ---------------------------------------------------------------------
  // the sessions router

  /** The verbs the sessions router maps methods to. */
  datatype SessionsRoute = SignInRoute | InfoRoute | HeadRoute | SignOutRoute | SessionOptionsRoute

  /** The router's fallback: its own bare 404, or the app's `final`. */
  datatype Fallback = NotFoundFallback | AppFallback

  datatype SessionsRouter = SessionsRouter(methods: map<string, SessionsRoute>, final: Fallback)

  const FreshSessionsRouter: SessionsRouter := SessionsRouter(map[], NotFoundFallback)

  /** `build(proxy)`: map the five methods and take the proxy's `final`
      when it has one. */
  function BuildSessionsRouter(r: SessionsRouter, proxyHasFinal: bool): (r': SessionsRouter)
    ensures r'.methods.Keys == r.methods.Keys + {"POST", "GET", "HEAD", "DELETE", "OPTIONS"}
    ensures r'.final.AppFallback? <==> proxyHasFinal
  {
    SessionsRouter(r.methods["POST" := SignInRoute]["GET" := InfoRoute]["HEAD" := HeadRoute]
                            ["DELETE" := SignOutRoute]["OPTIONS" := SessionOptionsRoute],
                   if proxyHasFinal then AppFallback else NotFoundFallback)
  }

  /** Run one verb of the sessions app. */
  function RunVerb(c: SessionsApp.Config, s: Store, route: SessionsRoute, req: SessionsApp.SessionRequest): SessionsApp.Handled {
    match route
    case SignInRoute => SessionsApp.SignIn(c, s, req)
    case InfoRoute => SessionsApp.Info(c, s, req)
    case HeadRoute => SessionsApp.Head(c, s, req)
    case SignOutRoute => SessionsApp.SignOut(c, s, req)
    case SessionOptionsRoute => SessionsApp.Handled(s, Replied(SessionsApp.OptionsReply()))
  }

  /** The router's fallback: its own `notFound`, or the app's `final`,
      which checks a `headerSent` flag the response never sets and so
      always answers. */
  function FallbackReply(f: Fallback): (r: Reply)
    ensures r == Status(404)
  {
    match f
    case NotFoundFallback => Status(404)
    case AppFallback => BaseApp.Final(false).value
  }

  /** `SessionsApp.handle`: with no router a configuration error (a 500,
      no headers); otherwise the app's headers, then the router. */
  function ServeSessions(c: SessionsApp.Config, router: Option<SessionsRouter>, s: Store, verb: string, req: SessionsApp.SessionRequest): (h: SessionsApp.Handled)
    ensures router.None? ==> h == SessionsApp.Handled(s, Replied(InternalError))
    ensures router.Some? && h.outcome.Replied? ==>
              |h.outcome.reply.headers| >= |c.headers| && h.outcome.reply.headers[..|c.headers|] == c.headers
  {
    match router
    case None => SessionsApp.Handled(s, Replied(SessionsApp.ErrorReply(SessionsApp.ConfigurationError)))
    case Some(r) =>
      if verb !in r.methods then SessionsApp.Handled(s, Replied(WithHeaders(c.headers, FallbackReply(r.final))))
      else
        var h := RunVerb(c, s, r.methods[verb], req);
        if h.outcome.Threw? then h else SessionsApp.Handled(h.store, Replied(WithHeaders(c.headers, h.outcome.reply)))
  }

  /** Before `build`, every method is a bare 404. */
  lemma UnbuiltSessionsRouter404(c: SessionsApp.Config, s: Store, verb: string, req: SessionsApp.SessionRequest)
    ensures ServeSessions(c, Some(FreshSessionsRouter), s, verb, req)
            == SessionsApp.Handled(s, Replied(WithHeaders(c.headers, Status(404))))
  {
  }

  /** OPTIONS on the built router: 204 with the app's custom headers and
      no body. */
  lemma SessionOptionsIs204(c: SessionsApp.Config, s: Store, hasFinal: bool, req: SessionsApp.SessionRequest)
    ensures ServeSessions(c, Some(BuildSessionsRouter(FreshSessionsRouter, hasFinal)), s, "OPTIONS", req)
            == SessionsApp.Handled(s, Replied(Reply(204, c.headers, NoBody)))
  {
    var r := BuildSessionsRouter(FreshSessionsRouter, hasFinal);
    assert "OPTIONS" in r.methods && r.methods["OPTIONS"] == SessionOptionsRoute;
    ServeSessionsMapped(c, r, s, "OPTIONS", req);
    assert RunVerb(c, s, SessionOptionsRoute, req) == SessionsApp.Handled(s, Replied(SessionsApp.OptionsReply()));
    assert c.headers + [] == c.headers;
  }

  /** A method the router maps runs its verb; a reply follows the app's
      headers, an exception passes through. */
  lemma ServeSessionsMapped(c: SessionsApp.Config, r: SessionsRouter, s: Store, verb: string, req: SessionsApp.SessionRequest)
    requires verb in r.methods
    ensures var h := RunVerb(c, s, r.methods[verb], req);
            ServeSessions(c, Some(r), s, verb, req)
            == if h.outcome.Threw? then h else SessionsApp.Handled(h.store, Replied(WithHeaders(c.headers, h.outcome.reply)))
  {
  }

  /** A method outside the five (PUT, say) is a bare 404 after the app's
      headers, and nothing is looked up. */
  lemma SessionsUnmappedIs404(c: SessionsApp.Config, s: Store, hasFinal: bool, verb: string, req: SessionsApp.SessionRequest)
    requires verb !in {"POST", "GET", "HEAD", "DELETE", "OPTIONS"}
    ensures ServeSessions(c, Some(BuildSessionsRouter(FreshSessionsRouter, hasFinal)), s, verb, req)
            == SessionsApp.Handled(s, Replied(WithHeaders(c.headers, Status(404))))
  {
  }
}

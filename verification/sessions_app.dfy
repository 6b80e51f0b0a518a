/** The sessions mini app: sign in (POST), session info (GET), sign out
    (DELETE), the authorization probe (HEAD) and OPTIONS. Each verb is a
    chain of callbacks through the database, password and session ports;
    the chains are written once over what the ports answer, and then wired
    to the ports of the framework: the not-implemented stubs and the
    reference (mock) adapters. */
module SessionsApp {
  import opened Wrappers
  import opened Values
  import opened Errors
  import opened Http
  import opened MockDatabase
  import MockPassword
  import SessionAdapter
  import MockSession
  import BaseApp

  const ConfigurationError: Error := Plain("CONFIGURATION_ERROR")
  const DatabaseNotImplemented: Error := Plain("DATABASE_ADAPTER_NOT_IMPLEMENTED")
  const PasswordNotImplemented: Error := Plain("PASSWORD_ADAPTER_NOT_IMPLEMENTED")

  // ---------------------------------------------------------------------
  // ports and configuration

  /** The database port: the base adapter, whose every call reports
      not-implemented, or the in-memory reference adapter. */
  datatype DatabasePort = StubDatabase | MockDatabasePort

  /** The password port: the base adapter or the reference adapter. */
  datatype PasswordPort = StubPassword | MockPasswordPort

  /** The session port: the base adapter or the reference adapter with its
      `secret` and `expose` options. */
  datatype SessionPort = BaseSessionPort | MockSessionPort(secret: Option<string>, expose: seq<string>)

  /** The `fields` option: names of the primary and password fields. */
  datatype FieldOptions = FieldOptions(primary: Option<string>, password: Option<string>)

  datatype Fields = Fields(primary: string, password: string)

  /** The constructor's options; `router` says whether one was given. */
  datatype Options = Options(
    session: Option<SessionPort>,
    database: Option<DatabasePort>,
    password: Option<PasswordPort>,
    router: bool,
    table: Option<string>,
    fields: Option<FieldOptions>)

  /** A constructed app. `headers` starts empty; callers may fill it. */
  datatype Config = Config(
    session: SessionPort,
    database: Option<DatabasePort>,
    password: Option<PasswordPort>,
    headers: seq<Header>,
    table: string,
    fields: Fields)

  /** `option || fallback` for a string option: unset and `""` fall back. */
  function OrElse(o: Option<string>, fallback: string): string {
    if o.Some? && o.value != "" then o.value else fallback
  }

  /** `setFieldNames`: each field name keeps a non-empty option and falls
      back to `username` / `password` otherwise. */
  function FieldNames(opts: Option<FieldOptions>): (f: Fields)
    ensures f.primary != "" && f.password != ""
    ensures opts.Some? && opts.value.primary.Some? && opts.value.primary.value != "" ==>
              f.primary == opts.value.primary.value
    ensures !(opts.Some? && opts.value.primary.Some? && opts.value.primary.value != "") ==> f.primary == "username"
    ensures opts.Some? && opts.value.password.Some? && opts.value.password.value != "" ==>
              f.password == opts.value.password.value
    ensures !(opts.Some? && opts.value.password.Some? && opts.value.password.value != "") ==> f.password == "password"
  {
    match opts
    case None => Fields("username", "password")
    case Some(o) => Fields(OrElse(o.primary, "username"), OrElse(o.password, "password"))
  }

  /** The configuration both session apps assemble once their checks
      pass, given the default table name. */
  function Assemble(o: Options, defaultTable: string): Config
    requires o.session.Some?
  {
    Config(o.session.value, o.database, o.password, [], OrElse(o.table, defaultTable), FieldNames(o.fields))
  }

  /** `new SessionsApp(options)`: options, a session adapter and a router
      are required, in that order; the table defaults to `users`. */
  function New(o: Option<Options>): (r: Result<Config, Error>)
    ensures o.None? ==> r == Failure(Plain("APP_OPTIONS_REQUIRED"))
    ensures o.Some? && o.value.session.None? ==> r == Failure(Plain("APP_SESSION_ADAPTER_REQUIRED"))
    ensures o.Some? && o.value.session.Some? && !o.value.router ==> r == Failure(Plain("APP_ROUTER_ADAPTER_REQUIRED"))
    ensures r.Success? <==> o.Some? && o.value.session.Some? && o.value.router
    ensures r.Success? ==>
              r.value.session == o.value.session.value && r.value.database == o.value.database
              && r.value.password == o.value.password && r.value.headers == []
              && r.value.fields == FieldNames(o.value.fields)
    ensures r.Success? && o.value.table.Some? && o.value.table.value != "" ==> r.value.table == o.value.table.value
    ensures r.Success? && (o.value.table.None? || o.value.table == Some("")) ==> r.value.table == "users"
  {
    if o.None? then Failure(Plain("APP_OPTIONS_REQUIRED"))
    else if o.value.session.None? then Failure(Plain("APP_SESSION_ADAPTER_REQUIRED"))
    else if !o.value.router then Failure(Plain("APP_ROUTER_ADAPTER_REQUIRED"))
    else Success(Assemble(o.value, "users"))
  }

  /** `error`: only the `UNAUTHORIZED` message earns a bare 401; every
      other error, whatever its `status`, is an opaque 500. */
  function ErrorReply(e: Error): (r: Reply)
    ensures r.status == 401 <==> e.message == "UNAUTHORIZED"
    ensures r.status == 401 ==> r == Status(401)
    ensures r.status != 401 ==> r == InternalError
  {
    if e.message == "UNAUTHORIZED" then Status(401) else InternalError
  }

  /** `options` and `empty` without an error: 204 and no body. */
  function OptionsReply(): (r: Reply)
    ensures r.status == 204 && r.headers == [] && r.body.NoBody?
  {
    Status(204)
  }

  // ---------------------------------------------------------------------
  // the chains, over what the ports answer

  /** What the database's `query` called back with. */
  datatype Rows = QueryFailed(error: Error) | Rows(results: seq<Record>)

  /** What the password port's `validate` called back with. */
  datatype Check = CheckFailed(error: Error) | Checked(valid: bool)

  /** What the session port's `create` led to: an error, an exception
      thrown inside it, or the headers it set and the session data. */
  datatype Creation = CreateFailed(error: Error) | CreateCrashed | Established(headers: seq<Header>, data: Record)

  /** `signInSessionResult`: 201 with the session data and the headers
      `create` set, or the translated error. */
  function SessionResult(translate: Error -> Reply, creation: Creation): (o: Outcome)
    ensures o.Threw? <==> creation.CreateCrashed?
    ensures creation.CreateFailed? ==> o == Replied(translate(creation.error))
    ensures creation.Established? ==>
              o == Replied(Reply(201, creation.headers, JsonRecord(creation.data)))
  {
    match creation
    case CreateFailed(e) => Replied(translate(e))
    case CreateCrashed => Threw("TypeError")
    case Established(hs, d) => Replied(Reply(201, hs, JsonRecord(d)))
  }

  /** `signInQueryResult` then `signInPasswordResult` then the session
      stage: a query error is translated, no match is a bare 401, the
      first match's password is checked (error translated, mismatch 401)
      and only a valid password reaches the session port. */
  function SignInChain(translate: Error -> Reply, rows: Rows, check: Record -> Check, create: Record -> Creation): (o: Outcome)
    ensures rows.QueryFailed? ==> o == Replied(translate(rows.error))
    ensures rows.Rows? && |rows.results| == 0 ==> o == Replied(Status(401))
    ensures rows.Rows? && |rows.results| > 0 && check(rows.results[0]).CheckFailed? ==>
              o == Replied(translate(check(rows.results[0]).error))
    ensures rows.Rows? && |rows.results| > 0 && check(rows.results[0]) == Checked(false) ==> o == Replied(Status(401))
    ensures rows.Rows? && |rows.results| > 0 && check(rows.results[0]) == Checked(true) ==>
              o == SessionResult(translate, create(rows.results[0]))
  {
    match rows
    case QueryFailed(e) => Replied(translate(e))
    case Rows(results) =>
      if |results| == 0 then Replied(Status(401))
      else
        match check(results[0])
        case CheckFailed(e) => Replied(translate(e))
        case Checked(valid) =>
          if !valid then Replied(Status(401)) else SessionResult(translate, create(results[0]))
  }

  /** The callback `authorize` hands its verdict to: the adapter's bare 500
      when the callback went missing, the translated error, or the verb's
      own continuation with the session data. */
  function Gate(translate: Error -> Reply, a: SessionAdapter.Authorization, granted: Record -> Outcome): (o: Outcome)
    ensures a.MissingCallback? ==> o == Replied(Status(500))
    ensures a.Delivered? && a.result.Failure? ==> o == Replied(translate(a.result.error))
    ensures a.Delivered? && a.result.Success? ==> o == granted(a.result.value)
  {
    match a
    case MissingCallback => Replied(Status(500))
    case Delivered(result) =>
      match result
      case Failure(e) => Replied(translate(e))
      case Success(d) => granted(d)
  }

  /** `infoAuthorized`: 200 with the session data. */
  function InfoGranted(d: Record): Outcome {
    Replied(Json(200, d))
  }

  /** `empty` as the HEAD callback: 204. */
  function HeadGranted(d: Record): Outcome {
    Replied(Status(204))
  }

  /** `signOutSessionDestroy`: the translated destroy error, or 204. */
  function DestroyResult(translate: Error -> Reply, destroyed: Option<Error>): (o: Outcome)
    ensures destroyed.None? ==> o == Replied(Status(204))
    ensures destroyed.Some? ==> o == Replied(translate(destroyed.value))
  {
    match destroyed
    case None => Replied(OptionsReply())
    case Some(e) => Replied(translate(e))
  }

  // ---------------------------------------------------------------------
  // wiring to the ports

  /** One request to the session endpoint: the parsed body and the
      `authorization` header. */
  datatype SessionRequest = SessionRequest(body: Record, authorization: Option<string>)

  /** The in-memory store after the request and what the request did. */
  datatype Handled = Handled(store: Store, outcome: Outcome)

  /** The reference session adapter reads the users table and the primary
      field of the app it serves. */
  function SessionConfig(c: Config, secret: Option<string>, expose: seq<string>): MockSession.Config {
    MockSession.Config(secret, expose, c.table, c.fields.primary)
  }

  /** The sign-in lookup: equality on the primary field with the body's
      value. */
  function SignInCondition(c: Config, body: Record): Condition {
    Condition(c.fields.primary, "=", Get(body, c.fields.primary))
  }

  /** The password port on the stored hash and the submitted password. */
  function CheckUser(port: PasswordPort, hash: Option<Value>, plain: Option<Value>): (k: Check)
    ensures port.StubPassword? ==> k == CheckFailed(PasswordNotImplemented)
    ensures port.MockPasswordPort? ==> k == Checked(MockPassword.Validate(hash, plain))
  {
    match port
    case StubPassword => CheckFailed(PasswordNotImplemented)
    case MockPasswordPort => Checked(MockPassword.Validate(hash, plain))
  }

  /** The condition the reference session port looks a user up by: its
      primary field equal to the given value. */
  function UserLookup(c: Config, username: Option<Value>): Condition {
    MockSession.UserCondition(SessionConfig(c, None, []), username)
  }

  /** The session port's `create` for the signed-in user. The reference
      adapter sets the `x-token` header, then looks the user up through
      the app's database: anything but the reference database, or a
      lookup with no match while some field is exposed, raises a
      `TypeError`. */
  function CreateSession(c: Config, s: Store, user: Record): (cr: Creation)
    ensures c.session.BaseSessionPort? ==> cr == CreateFailed(SessionAdapter.NotImplemented)
    ensures cr.Established? ==> c.session.MockSessionPort? && c.database == Some(MockDatabasePort)
    ensures c.session.MockSessionPort? ==>
              var t := Table(s, c.table);
              var first := FirstWhere(t, UserLookup(c, Get(user, c.fields.primary)));
              && !cr.CreateFailed?
              && (cr.CreateCrashed? <==> c.database != Some(MockDatabasePort) || (first.None? && |c.session.expose| > 0))
              && (cr.Established? ==>
                    cr.headers == [Header("x-token", MockSession.Token(SessionConfig(c, c.session.secret, c.session.expose), Get(user, c.fields.primary)))]
                    && cr.data == if first.Some? then MockSession.Project(t[first.value], c.session.expose) else map[])
  {
    match c.session
    case BaseSessionPort => CreateFailed(SessionAdapter.NotImplemented)
    case MockSessionPort(secret, expose) =>
      if c.database != Some(MockDatabasePort) then CreateCrashed
      else
        var m := MockSession.Create(SessionConfig(c, secret, expose), s, user);
        if m.state.Session? then Established([Header("x-token", m.token)], m.state.data) else CreateCrashed
  }

  /** POST: without a database or password port the request fails with a
      configuration error; the base database reports not-implemented; the
      reference database is queried and the chain runs on its answer. The
      store only gains the registration of the users table. */
  function SignIn(c: Config, s: Store, req: SessionRequest): (h: Handled)
    ensures c.database.None? || c.password.None? ==> h == Handled(s, Replied(ErrorReply(ConfigurationError)))
    ensures c.database.Some? && c.password.Some? && c.database.value.StubDatabase? ==>
              h == Handled(s, Replied(ErrorReply(DatabaseNotImplemented)))
    ensures c.database == Some(MockDatabasePort) && c.password.Some? ==> h.store == GetTable(s, c.table)
  {
    SignInThrough(c, s, req, true)
  }

  /** The sign-in chain with the reference session port attached to the
      app (`attached`) or, as shipped, left detached. */
  function SignInThrough(c: Config, s: Store, req: SessionRequest, attached: bool): Handled {
    if c.database.None? || c.password.None? then Handled(s, Replied(ErrorReply(ConfigurationError)))
    else match c.database.value
      case StubDatabase => Handled(s, Replied(ErrorReply(DatabaseNotImplemented)))
      case MockDatabasePort =>
        var q := Query(s, c.table, [SignInCondition(c, req.body)]);
        var pw := c.fields.password;
        var o := SignInChain(ErrorReply, Rows(q.results),
          user => CheckUser(c.password.value, Get(user, pw), Get(req.body, pw)),
          user => if attached then CreateSession(c, q.store, user) else CreateSessionAsWritten(c, q.store, user));
        Handled(q.store, o)
  }

  /** The session port's `create` as shipped: the reference adapter's
      `app` is `null`, so `create` raises at `this.app.fields` whatever
      the database, the user and `expose`. It agrees with the attached
      adapter exactly where that one establishes no session. */
  function CreateSessionAsWritten(c: Config, s: Store, user: Record): (cr: Creation)
    ensures cr == CreateSession(c, s, user) <==> !CreateSession(c, s, user).Established?
    ensures cr != CreateSession(c, s, user) ==> cr.CreateCrashed?
  {
    match c.session
    case BaseSessionPort => CreateFailed(SessionAdapter.NotImplemented)
    case MockSessionPort(_, _) => CreateCrashed
  }

  /** POST as shipped: the same chain, so the same store and the same
      replies, except that every sign-in the attached adapter answers
      with 201 raises instead. */
  function SignInAsWritten(c: Config, s: Store, req: SessionRequest): (h: Handled)
    ensures h.store == SignIn(c, s, req).store
    ensures h.outcome != SignIn(c, s, req).outcome <==>
              SignIn(c, s, req).outcome.Replied? && SignIn(c, s, req).outcome.reply.status == 201
    ensures h.outcome != SignIn(c, s, req).outcome ==> h.outcome == Threw("TypeError")
  {
    SignInThrough(c, s, req, false)
  }

  /** What `authorize` produced: the store, and the verdict, or `None`
      when the session port's `load` raised. */
  datatype Authorized = Authorized(store: Store, after: Option<SessionAdapter.AfterLoad>)

  /** `session.authorize` with the request's header. The base adapter
      fails every load; the reference adapter leaves no session for a
      wrong secret and otherwise looks the user up through the app's
      database, raising when it cannot. */
  function Authorize(c: Config, s: Store, req: SessionRequest): (a: Authorized)
    ensures c.session.BaseSessionPort? ==>
              a == Authorized(s, Some(SessionAdapter.Authorize(SessionAdapter.BaseLoad(None))))
    ensures a.after.Some? ==> a.after.value.outcome.Delivered?
    ensures c.session.MockSessionPort? ==>
              var first := FirstWhere(Table(s, c.table), UserLookup(c, Some(VStr(MockSession.TokenUser(req.authorization)))));
              a.after.None? <==> MockSession.TokenSecret(req.authorization) == c.session.secret
                                 && (c.database != Some(MockDatabasePort) || (first.None? && |c.session.expose| > 0))
    ensures a.after.Some? && a.after.value.outcome.result.Success? ==>
              var t := Table(s, c.table);
              var first := FirstWhere(t, UserLookup(c, Some(VStr(MockSession.TokenUser(req.authorization)))));
              && c.session.MockSessionPort?
              && Truthy(Get(a.after.value.outcome.result.value, "id"))
              && first.Some?
              && a.after.value.outcome.result.value == MockSession.Project(t[first.value], c.session.expose)
  {
    match c.session
    case BaseSessionPort => Authorized(s, Some(SessionAdapter.Authorize(SessionAdapter.BaseLoad(None))))
    case MockSessionPort(secret, expose) =>
      var m := MockSession.Load(SessionConfig(c, secret, expose), s, req.authorization);
      if m.state.NoSession? then
        Authorized(s, Some(SessionAdapter.Authorize(SessionAdapter.LoadResult(None, None))))
      else if c.database != Some(MockDatabasePort) || m.state.Crashed? then Authorized(s, None)
      else Authorized(m.store, Some(SessionAdapter.Authorize(SessionAdapter.LoadResult(None, Some(m.state.data)))))
  }

  /** `session.authorize` as shipped: the detached reference adapter
      raises on every request carrying the secret, whatever the database
      and `expose`; elsewhere it answers as the attached one does. */
  function AuthorizeAsWritten(c: Config, s: Store, req: SessionRequest): (a: Authorized)
    ensures a.after.None? <==> c.session.MockSessionPort? && MockSession.TokenSecret(req.authorization) == c.session.secret
    ensures a.after.Some? ==> a == Authorize(c, s, req)
  {
    match c.session
    case BaseSessionPort => Authorized(s, Some(SessionAdapter.Authorize(SessionAdapter.BaseLoad(None))))
    case MockSessionPort(secret, expose) =>
      var m := MockSession.LoadDetached(SessionConfig(c, secret, expose), s, req.authorization);
      if m.state.NoSession? then
        Authorized(s, Some(SessionAdapter.Authorize(SessionAdapter.LoadResult(None, None))))
      else Authorized(s, None)
  }

  /** A gated verb: an exception from `load`, or the gate's outcome. */
  function Gated(a: Authorized, granted: Record -> Outcome): Outcome {
    if a.after.None? then Threw("TypeError") else Gate(ErrorReply, a.after.value.outcome, granted)
  }

  /** GET: the session data of an authorized request. */
  function Info(c: Config, s: Store, req: SessionRequest): (h: Handled)
    ensures h.outcome.Replied? && h.outcome.reply.status == 200 ==>
              c.session.MockSessionPort? && h.outcome.reply.body.JsonRecord?
              && Truthy(Get(h.outcome.reply.body.record, "id"))
  {
    var a := Authorize(c, s, req);
    Handled(a.store, Gated(a, InfoGranted))
  }

  /** HEAD: 204 for an authorized request. */
  function Head(c: Config, s: Store, req: SessionRequest): (h: Handled)
    ensures h.outcome.Replied? && h.outcome.reply.status == 204 ==> c.session.MockSessionPort?
  {
    var a := Authorize(c, s, req);
    Handled(a.store, Gated(a, HeadGranted))
  }

  /** The session port's `destroy`. */
  function Destroy(port: SessionPort): (e: Option<Error>)
    ensures e.None? <==> port.MockSessionPort?
  {
    match port
    case BaseSessionPort => SessionAdapter.BaseDestroy()
    case MockSessionPort(_, _) => MockSession.Destroy()
  }

  /** DELETE: authorize, then `destroy`, then 204. */
  function SignOut(c: Config, s: Store, req: SessionRequest): (h: Handled)
    ensures h.outcome.Replied? && h.outcome.reply.status == 204 ==> c.session.MockSessionPort?
  {
    var a := Authorize(c, s, req);
    Handled(a.store, Gated(a, d => DestroyResult(ErrorReply, Destroy(c.session))))
  }

  // ---------------------------------------------------------------------
  // properties

  /** An error class's status means nothing here: only the message
      decides, unlike the resource apps' translation. */
  lemma StatusIgnored(e: Error)
    requires e.message != "UNAUTHORIZED" && (e.status == Some(401) || e.status == Some(404))
    ensures ErrorReply(e) == InternalError
    ensures BaseApp.ErrorReply(e).status == e.status.value
  {
  }

  /** Without both a database and a password port, sign-in is a 500 and
      touches nothing. */
  lemma SignInNeedsPorts(c: Config, s: Store, req: SessionRequest)
    requires c.database.None? || c.password.None?
    ensures SignIn(c, s, req) == Handled(s, Replied(InternalError))
  {
  }

  /** With the reference database, a body whose primary value matches no
      stored user is refused with a bare 401 before any password check. */
  lemma SignInUnknownUser(c: Config, s: Store, req: SessionRequest)
    requires c.database == Some(MockDatabasePort) && c.password.Some?
    requires forall r :: r in Table(s, c.table) ==> !Holds(r, SignInCondition(c, req.body))
    ensures SignIn(c, s, req).outcome == Replied(Status(401))
  {
    var cond := SignInCondition(c, req.body);
    var q := Query(s, c.table, [cond]);
    if |q.results| > 0 {
      QuerySoundAndComplete(s, c.table, [cond], q.results[0]);
      assert false;
    }
  }

  /** The first stored user matching the body's primary value. */
  function FirstMatch(c: Config, s: Store, body: Record): Option<Record> {
    var q := Query(s, c.table, [SignInCondition(c, body)]);
    if |q.results| == 0 then None else Some(q.results[0])
  }

  /** The first match is a stored user sharing the body's primary value. */
  lemma FirstMatchIsStored(c: Config, s: Store, body: Record)
    requires FirstMatch(c, s, body).Some?
    ensures FirstMatch(c, s, body).value in Table(s, c.table)
    ensures Holds(FirstMatch(c, s, body).value, SignInCondition(c, body))
  {
    var cond := SignInCondition(c, body);
    var q := Query(s, c.table, [cond]);
    QuerySoundAndComplete(s, c.table, [cond], q.results[0]);
  }

  /** The reference password port refuses a password that does not hash
      to the first match's stored hash, with a bare 401. */
  lemma SignInWrongPassword(c: Config, s: Store, req: SessionRequest)
    requires c.database == Some(MockDatabasePort) && c.password == Some(MockPasswordPort)
    requires FirstMatch(c, s, req.body).Some?
    requires !MockPassword.Validate(Get(FirstMatch(c, s, req.body).value, c.fields.password), Get(req.body, c.fields.password))
    ensures SignIn(c, s, req).outcome == Replied(Status(401))
  {
  }

  /** A strictly equal primary value selects the same users, so the
      session lookup `create` runs finds the user sign-in matched. */
  lemma SameConditionSameMatch(c: Config, s: Store, body: Record, user: Record)
    requires c.fields.primary != "id"
    requires user in Table(s, c.table) && Holds(user, SignInCondition(c, body))
    ensures Holds(user, MockSession.UserCondition(SessionConfig(c, None, []), Get(user, c.fields.primary)))
    ensures forall r :: Holds(r, SignInCondition(c, body))
              <==> Holds(r, MockSession.UserCondition(SessionConfig(c, None, []), Get(user, c.fields.primary)))
  {
  }

  /** The session `create` establishes for the matched user is that
      user's projection: its own lookup finds the same first user. */
  lemma CreateFindsMatchedUser(c: Config, s: Store, body: Record)
    requires c.session.MockSessionPort? && c.fields.primary != "id"
    requires FirstMatch(c, s, body).Some?
    ensures var mc := SessionConfig(c, c.session.secret, c.session.expose);
            var user := FirstMatch(c, s, body).value;
            MockSession.Create(mc, GetTable(s, c.table), user).state
            == MockSession.Session(MockSession.Project(user, c.session.expose))
  {
    var user := FirstMatch(c, s, body).value;
    var mc := SessionConfig(c, c.session.secret, c.session.expose);
    var cond := SignInCondition(c, body);
    FirstMatchIsStored(c, s, body);
    SameConditionSameMatch(c, s, body, user);
    var ucond := MockSession.UserCondition(mc, Get(user, c.fields.primary));
    SameConditionFirst(Table(s, c.table), cond, ucond);
    assert Table(GetTable(s, c.table), c.table) == Table(s, c.table);
  }

  /** Sign-in through the reference ports: with a matching user and a
      valid password the reply is 201, carries the token `create` issues
      for that user and the session exposing the user's fields. */
  lemma SignInSucceeds(c: Config, s: Store, req: SessionRequest)
    requires c.database == Some(MockDatabasePort) && c.password == Some(MockPasswordPort) && c.session.MockSessionPort?
    requires c.fields.primary != "id"
    requires FirstMatch(c, s, req.body).Some?
    requires MockPassword.Validate(Get(FirstMatch(c, s, req.body).value, c.fields.password), Get(req.body, c.fields.password))
    ensures var user := FirstMatch(c, s, req.body).value;
            var mc := SessionConfig(c, c.session.secret, c.session.expose);
            SignIn(c, s, req).outcome
            == Replied(Reply(201, [Header("x-token", MockSession.Token(mc, Get(user, c.fields.primary)))],
                             JsonRecord(MockSession.Project(user, c.session.expose))))
  {
    CreateFindsMatchedUser(c, s, req.body);
  }

  /** Sign in, then ask for the session with the token the sign-in reply
      carried: the same session comes back with 200, provided it has a
      truthy `id`; otherwise the request is refused with 401. Neither the
      user name nor the secret may contain the token's separator. */
  lemma SignInThenInfo(c: Config, s: Store, req: SessionRequest, name: string, body2: Record)
    requires c.database == Some(MockDatabasePort) && c.password == Some(MockPasswordPort) && c.session.MockSessionPort?
    requires c.fields.primary != "id"
    requires FirstMatch(c, s, req.body).Some?
    requires MockPassword.Validate(Get(FirstMatch(c, s, req.body).value, c.fields.password), Get(req.body, c.fields.password))
    requires Get(FirstMatch(c, s, req.body).value, c.fields.primary) == Some(VStr(name)) && '|' !in name
    requires c.session.secret.Some? && '|' !in c.session.secret.value
    ensures var data := MockSession.Project(FirstMatch(c, s, req.body).value, c.session.expose);
            var token := MockSession.Token(SessionConfig(c, c.session.secret, c.session.expose), Some(VStr(name)));
            Info(c, SignIn(c, s, req).store, SessionRequest(body2, Some(token))).outcome
            == if Truthy(Get(data, "id")) then Replied(Json(200, data)) else Replied(Status(401))
  {
    var user := FirstMatch(c, s, req.body).value;
    var mc := SessionConfig(c, c.session.secret, c.session.expose);
    var s1 := SignIn(c, s, req).store;
    assert s1 == GetTable(s, c.table);
    CreateFindsMatchedUser(c, s, req.body);
    MockSession.TokenRoundTrip(mc, s1, user, name);
    assert MockSession.Create(mc, s1, user).store == s1;
  }

  /** With nothing exposed, `load` copies no field, so an unknown user
      does not make it raise; the session it leaves is `{}`, which has no
      `id`. Every GET is then refused with 401, whatever it names. */
  lemma EmptyExposeUnauthorized(c: Config, s: Store, req: SessionRequest)
    requires c.session.MockSessionPort? && c.session.expose == [] && c.database == Some(MockDatabasePort)
    ensures Authorize(c, s, req).after.Some?
    ensures Info(c, s, req).outcome == Replied(Status(401))
  {
  }

  /** The shipped and the attached adapter authorize alike except on a
      request carrying the secret that the attached one would have
      loaded: there the shipped one raises. */
  lemma AuthorizeAsWrittenAgrees(c: Config, s: Store, req: SessionRequest)
    ensures AuthorizeAsWritten(c, s, req) == Authorize(c, s, req) <==>
              !(c.session.MockSessionPort? && MockSession.TokenSecret(req.authorization) == c.session.secret
                && Authorize(c, s, req).after.Some?)
  {
  }

  /** As shipped, every gated verb (GET, HEAD, DELETE) raises on a
      request that carries the secret, whoever it names. */
  lemma ShippedGatedVerbsRaise(c: Config, s: Store, req: SessionRequest, granted: Record -> Outcome)
    requires c.session.MockSessionPort? && MockSession.TokenSecret(req.authorization) == c.session.secret
    ensures Gated(AuthorizeAsWritten(c, s, req), granted) == Threw("TypeError")
  {
  }

  /** The sign-in `SignInSucceeds` answers with 201 raises as shipped. */
  lemma ShippedSignInRaises(c: Config, s: Store, req: SessionRequest)
    requires c.database == Some(MockDatabasePort) && c.password == Some(MockPasswordPort) && c.session.MockSessionPort?
    requires c.fields.primary != "id"
    requires FirstMatch(c, s, req.body).Some?
    requires MockPassword.Validate(Get(FirstMatch(c, s, req.body).value, c.fields.password), Get(req.body, c.fields.password))
    ensures SignIn(c, s, req).outcome.Replied? && SignIn(c, s, req).outcome.reply.status == 201
    ensures SignInAsWritten(c, s, req).outcome == Threw("TypeError")
  {
    SignInSucceeds(c, s, req);
  }

  /** With the base session adapter every gated verb is a 500. */
  lemma BaseSessionRefusesAll(c: Config, s: Store, req: SessionRequest)
    requires c.session.BaseSessionPort?
    ensures Info(c, s, req).outcome == Replied(InternalError)
    ensures Head(c, s, req).outcome == Replied(InternalError)
    ensures SignOut(c, s, req).outcome == Replied(InternalError)
  {
  }

  /** A request without an `authorization` header, to an app whose secret
      is set, is unauthorized on every gated verb. */
  lemma MissingTokenUnauthorized(c: Config, s: Store, body: Record)
    requires c.session.MockSessionPort? && c.session.secret.Some?
    ensures Info(c, s, SessionRequest(body, None)).outcome == Replied(Status(401))
    ensures Head(c, s, SessionRequest(body, None)).outcome == Replied(Status(401))
    ensures SignOut(c, s, SessionRequest(body, None)).outcome == Replied(Status(401))
  {
    assert MockSession.Split("", '|') == [""];
  }

  /** The three gated verbs agree: GET answers 200 exactly when HEAD
      answers 204, and with the reference adapter, whose `destroy` always
      succeeds, DELETE answers exactly as HEAD does. */
  lemma GatedVerbsAgree(c: Config, s: Store, req: SessionRequest)
    ensures Info(c, s, req).outcome.Replied? && Info(c, s, req).outcome.reply.status == 200
            <==> Head(c, s, req).outcome == Replied(Status(204))
    ensures c.session.MockSessionPort? ==> SignOut(c, s, req) == Head(c, s, req)
  {
    var a := Authorize(c, s, req);
    if a.after.Some? && a.after.value.outcome.result.Failure? {
      assert Info(c, s, req).outcome == Replied(ErrorReply(a.after.value.outcome.result.error));
    }
  }

  /** Two conditions met by the same records select the same rows. */
  lemma {:induction false} SameConditionFirst(t: seq<Record>, a: Condition, b: Condition)
    requires forall r :: Holds(r, a) <==> Holds(r, b)
    ensures Matches(t, [a]) == Matches(t, [b])
    decreases |t|
  {
    if |t| > 0 {
      SameConditionFirst(t[1..], a, b);
      assert [a][1..] == [] && [b][1..] == [];
      assert Holds(t[0], a) <==> Holds(t[0], b);
      assert MatchCopies(t[0], [a]) == MatchCopies(t[0], [b]);
    }
  }
}

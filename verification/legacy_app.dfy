/** The legacy sessions app: the same five verbs as the sessions app, with
    its own constructor errors, a `User` default table and every error
    translated to an opaque 500. Its ports follow an older calling
    convention (callback before `req` and `res`); the legacy session
    adapter is not part of this model, so what each port answers is a
    parameter of the verb. Two stages are modelled twice: as written, and
    as evidently intended. */
module LegacyApp {
  import opened Wrappers
  import opened Values
  import opened Errors
  import opened Http
  import SessionAdapter
  import SessionsApp

  /** The constructor's options: which ports were given, the table and
      field-name options. */
  datatype Options = Options(
    session: bool,
    database: bool,
    password: bool,
    router: bool,
    table: Option<string>,
    fields: Option<SessionsApp.FieldOptions>)

  datatype Config = Config(database: bool, password: bool, headers: seq<Header>, table: string, fields: SessionsApp.Fields)

  /** `new App(options)`: options, a session adapter and a router are
      required, in that order; the table defaults to `User`. */
  function New(o: Option<Options>): (r: Result<Config, Error>)
    ensures o.None? ==> r == Failure(Plain("AUTHORIZER_OPTIONS_REQUIRED"))
    ensures o.Some? && !o.value.session ==> r == Failure(Plain("AUTHORIZER_SESSION_ADAPTER_REQUIRED"))
    ensures o.Some? && o.value.session && !o.value.router ==> r == Failure(Plain("AUTHORIZER_ROUTER_ADAPTER_REQUIRED"))
    ensures r.Success? <==> o.Some? && o.value.session && o.value.router
    ensures r.Success? ==>
              r.value.database == o.value.database && r.value.password == o.value.password
              && r.value.headers == [] && r.value.fields == SessionsApp.FieldNames(o.value.fields)
    ensures r.Success? && o.value.table.Some? && o.value.table.value != "" ==> r.value.table == o.value.table.value
    ensures r.Success? && (o.value.table.None? || o.value.table == Some("")) ==> r.value.table == "User"
  {
    if o.None? then Failure(Plain("AUTHORIZER_OPTIONS_REQUIRED"))
    else if !o.value.session then Failure(Plain("AUTHORIZER_SESSION_ADAPTER_REQUIRED"))
    else if !o.value.router then Failure(Plain("AUTHORIZER_ROUTER_ADAPTER_REQUIRED"))
    else
      var p := o.value;
      Success(Config(p.database, p.password, [], SessionsApp.OrElse(p.table, "User"), SessionsApp.FieldNames(p.fields)))
  }

  /** `error`: every error, `UNAUTHORIZED` included, is logged and
      answered with the opaque 500. */
  function ErrorReply(e: Error): (r: Reply)
    ensures r.status == 500 && r.body == JsonRecord(InternalErrorBody)
  {
    InternalError
  }

  /** What the legacy password port calls back with: an answer in the
      expected order, or the base adapter's call, which passes `false`
      where the request belongs and the request where the response
      belongs. */
  datatype LegacyCheck = Answered(check: SessionsApp.Check) | ShiftedStub

  /** The base adapter's answer read in the order it evidently means: a
      not-implemented error. */
  function Unshift(k: LegacyCheck): (c: SessionsApp.Check)
    ensures k.ShiftedStub? ==> c == SessionsApp.CheckFailed(SessionsApp.PasswordNotImplemented)
    ensures k.Answered? ==> c == k.check
  {
    match k
    case ShiftedStub => SessionsApp.CheckFailed(SessionsApp.PasswordNotImplemented)
    case Answered(check) => check
  }

  /** POST as written. The base password adapter's shifted call makes
      `signInPasswordResult` hand the error to `error` with the request in
      the response's place, and `req.status(500)` raises. */
  function SignInAsWritten(c: Config, rows: SessionsApp.Rows, check: Record -> LegacyCheck, create: Record -> SessionsApp.Creation): Outcome {
    if !c.database || !c.password then Replied(ErrorReply(SessionsApp.ConfigurationError))
    else if rows.Rows? && |rows.results| > 0 && check(rows.results[0]).ShiftedStub? then Threw("TypeError")
    else SessionsApp.SignInChain(ErrorReply, rows, u => Unshift(check(u)), create)
  }

  /** POST as evidently intended: the configuration check, then the
      sign-in chain with the not-implemented error reported as a 500. */
  function SignIn(c: Config, rows: SessionsApp.Rows, check: Record -> LegacyCheck, create: Record -> SessionsApp.Creation): (o: Outcome)
    ensures !c.database || !c.password ==> o == Replied(InternalError)
    ensures o.Replied? && o.reply.status != 401 && o.reply.status != 201 ==> o == Replied(InternalError)
  {
    if !c.database || !c.password then Replied(ErrorReply(SessionsApp.ConfigurationError))
    else SessionsApp.SignInChain(ErrorReply, rows, u => Unshift(check(u)), create)
  }

  /** GET: the session data, once authorized. */
  function Info(a: SessionAdapter.Authorization): Outcome {
    SessionsApp.Gate(ErrorReply, a, SessionsApp.InfoGranted)
  }

  /** HEAD: 204, once authorized. */
  function Head(a: SessionAdapter.Authorization): Outcome {
    SessionsApp.Gate(ErrorReply, a, SessionsApp.HeadGranted)
  }

  /** DELETE as written: after a successful `destroy`,
      `signOutSessionDestroy` calls `empty(req, res)`, which reads the
      request as an error and hands `error` an undefined response, whose
      `status` call raises. */
  function SignOutAsWritten(a: SessionAdapter.Authorization, destroyed: Option<Error>): Outcome {
    SessionsApp.Gate(ErrorReply, a, d => if destroyed.Some? then Replied(ErrorReply(destroyed.value)) else Threw("TypeError"))
  }

  /** DELETE as evidently intended: 204 after a successful `destroy`. */
  function SignOut(a: SessionAdapter.Authorization, destroyed: Option<Error>): (o: Outcome)
    ensures o.Replied?
    ensures o.reply.status == 204 <==> a.Delivered? && a.result.Success? && destroyed.None?
  {
    SessionsApp.Gate(ErrorReply, a, d => SessionsApp.DestroyResult(ErrorReply, destroyed))
  }

  // ---------------------------------------------------------------------
  // properties

  /** Unlike the sessions app, the legacy app answers an unauthorized
      request with a 500, not a 401. */
  lemma UnauthorizedIs500(a: SessionAdapter.Authorization)
    requires a == SessionAdapter.Authorization.Delivered(Failure(SessionAdapter.UnauthorizedError))
    ensures Info(a) == Replied(InternalError)
    ensures SessionsApp.Gate(SessionsApp.ErrorReply, a, SessionsApp.InfoGranted) == Replied(Status(401))
  {
  }

  /** As written, every sign-out that passes authorization and whose
      `destroy` succeeds raises instead of answering; the intended stage
      answers 204 there. */
  lemma SignOutAsWrittenRaises(data: Record)
    ensures SignOutAsWritten(SessionAdapter.Authorization.Delivered(Success(data)), None) == Threw("TypeError")
    ensures SignOut(SessionAdapter.Authorization.Delivered(Success(data)), None) == Replied(Status(204))
  {
  }

  /** Everywhere else the written and the intended sign-out agree. */
  lemma SignOutAgreesOtherwise(a: SessionAdapter.Authorization, destroyed: Option<Error>)
    requires !(a.Delivered? && a.result.Success? && destroyed.None?)
    ensures SignOutAsWritten(a, destroyed) == SignOut(a, destroyed)
  {
  }

  /** As written, a sign-in that reaches the base password adapter raises;
      the intended stage reports the not-implemented error as a 500. */
  lemma StubPasswordRaises(c: Config, user: Record, check: Record -> LegacyCheck, create: Record -> SessionsApp.Creation)
    requires c.database && c.password
    requires check(user) == ShiftedStub
    ensures SignInAsWritten(c, SessionsApp.Rows([user]), check, create) == Threw("TypeError")
    ensures SignIn(c, SessionsApp.Rows([user]), check, create) == Replied(InternalError)
  {
  }

  /** When the password port answers in the expected order, the written
      and the intended sign-in agree. */
  lemma SignInAgreesOtherwise(c: Config, rows: SessionsApp.Rows, check: Record -> LegacyCheck, create: Record -> SessionsApp.Creation)
    requires rows.Rows? && |rows.results| > 0 ==> check(rows.results[0]).Answered?
    ensures SignInAsWritten(c, rows, check, create) == SignIn(c, rows, check, create)
  {
  }
}

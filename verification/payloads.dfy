/** The per-request context passed along a chain: the request, the
    response and the app, each guarded by a getter that raises once the
    slot is empty, a metadata object created on first read, and `free`,
    which empties every slot. The request and the app are type parameters;
    the response is reduced to what the payload does with it (its status
    and whether it was ended). */
module Payloads {
  import opened Wrappers
  import opened Values
  import opened Errors

  /** What the payload does to a response: set its status, end it. */
  datatype Res = Res(status: int, ended: bool)

  /** A payload's four slots; `None` is a `null` slot. A present request,
      response or app is an object, hence truthy. */
  datatype Payload<Q, A> = Payload(req: Option<Q>, res: Option<Res>, app: Option<A>, metadata: Option<Record>)

  const ReqMissing: Error := Plain("PAYLOAD_REQ_MISSING")
  const ResMissing: Error := Plain("PAYLOAD_RES_MISSING")
  const AppMissing: Error := Plain("PAYLOAD_APP_MISSING")

  /** `new Payload(req, res, app)`: metadata starts out null. */
  function New<Q, A>(req: Option<Q>, res: Option<Res>, app: Option<A>): (p: Payload<Q, A>)
    ensures p.metadata.None?
    ensures Req(p).Success? <==> req.Some?
    ensures Response(p).Success? <==> res.Some?
    ensures App(p).Success? <==> app.Some?
  {
    Payload(req, res, app, None)
  }

  /** The `req` getter. */
  function Req<Q, A>(p: Payload<Q, A>): (r: Result<Q, Error>)
    ensures r.Success? <==> p.req.Some?
    ensures r.Success? ==> r.value == p.req.value
    ensures r.Failure? ==> r.error == ReqMissing
  {
    match p.req
    case None => Failure(ReqMissing)
    case Some(q) => Success(q)
  }

  /** The `res` getter. */
  function Response<Q, A>(p: Payload<Q, A>): (r: Result<Res, Error>)
    ensures r.Success? <==> p.res.Some?
    ensures r.Success? ==> r.value == p.res.value
    ensures r.Failure? ==> r.error == ResMissing
  {
    match p.res
    case None => Failure(ResMissing)
    case Some(x) => Success(x)
  }

  /** The `app` getter. */
  function App<Q, A>(p: Payload<Q, A>): (r: Result<A, Error>)
    ensures r.Success? <==> p.app.Some?
    ensures r.Success? ==> r.value == p.app.value
    ensures r.Failure? ==> r.error == AppMissing
  {
    match p.app
    case None => Failure(AppMissing)
    case Some(a) => Success(a)
  }

  /** A read of `metadata`: the payload afterwards and the object read. */
  datatype MetadataRead<Q, A> = MetadataRead(payload: Payload<Q, A>, read: Record)

  /** The `metadata` getter: a null slot is filled with `{}` first (any
      object already there is truthy and kept). Only the metadata slot can
      change. */
  function Metadata<Q, A>(p: Payload<Q, A>): (m: MetadataRead<Q, A>)
    ensures m.payload.metadata == Some(m.read)
    ensures p.metadata.Some? ==> m.read == p.metadata.value
    ensures p.metadata.None? ==> m.read == map[]
    ensures m.payload.req == p.req && m.payload.res == p.res && m.payload.app == p.app
  {
    match p.metadata
    case Some(o) => MetadataRead(p, o)
    case None => MetadataRead(p.(metadata := Some(map[])), map[])
  }

  /** The `status` setter: through the `res` getter, so it raises once the
      response slot is empty. */
  function SetStatus<Q, A>(p: Payload<Q, A>, code: int): (r: Result<Payload<Q, A>, Error>)
    ensures r.Failure? <==> p.res.None?
    ensures r.Failure? ==> r.error == ResMissing
    ensures r.Success? ==>
              r.value.res == Some(p.res.value.(status := code))
              && r.value.req == p.req && r.value.app == p.app && r.value.metadata == p.metadata
  {
    match p.res
    case None => Failure(ResMissing)
    case Some(x) => Success(p.(res := Some(x.(status := code))))
  }

  /** `notFound`: status 404, then the response is ended. */
  function NotFound<Q, A>(p: Payload<Q, A>): (r: Result<Payload<Q, A>, Error>)
    ensures r.Failure? <==> p.res.None?
    ensures r.Failure? ==> r.error == ResMissing
    ensures r.Success? ==>
              r.value.res == Some(Res(404, true))
              && r.value.req == p.req && r.value.app == p.app && r.value.metadata == p.metadata
  {
    var s :- SetStatus(p, 404);
    match s.res
    case None => Failure(ResMissing)
    case Some(x) => Success(s.(res := Some(x.(ended := true))))
  }

  /** `free`: every slot back to null. */
  function Free<Q, A>(p: Payload<Q, A>): (p': Payload<Q, A>)
    ensures p'.req.None? && p'.res.None? && p'.app.None? && p'.metadata.None?
  {
    Payload(None, None, None, None)
  }

  /** `process`: the app's router handles the payload; with no app the
      getter raises first. The router's handling is a parameter. */
  function Process<Q, A, T>(p: Payload<Q, A>, handle: A -> T): (r: Result<T, Error>)
    ensures r.Failure? <==> p.app.None?
    ensures r.Failure? ==> r.error == AppMissing
    ensures r.Success? ==> r.value == handle(p.app.value)
  {
    var a :- App(p);
    Success(handle(a))
  }

  // ---------------------------------------------------------------------
  // properties

  /** Metadata is stable: the second read returns the object the first
      read created or found, and leaves the payload as the first left it. */
  lemma MetadataStable<Q, A>(p: Payload<Q, A>)
    ensures var first := Metadata(p);
            var second := Metadata(first.payload);
            second.read == first.read && second.payload == first.payload
  {
  }

  /** After `free`, every getter raises with its own code. */
  lemma FreedGettersRaise<Q, A>(p: Payload<Q, A>)
    ensures Req(Free(p)) == Failure(ReqMissing)
    ensures Response(Free(p)) == Failure(ResMissing)
    ensures App(Free(p)) == Failure(AppMissing)
    ensures NotFound(Free(p)) == Failure(ResMissing)
  {
  }

  /** After `free`, `metadata` is a fresh empty object, whatever the
      payload held before. */
  lemma FreedMetadataFresh<Q, A>(p: Payload<Q, A>, k: string, v: Value)
    requires p.metadata == Some(map[k := v])
    ensures Metadata(p).read == map[k := v]
    ensures Metadata(Free(p)).read == map[]
  {
  }

  /** `notFound` is idempotent: a second call leaves the payload as the
      first did. */
  lemma NotFoundIdempotent<Q, A>(p: Payload<Q, A>)
    requires p.res.Some?
    ensures NotFound(p).Success? && NotFound(NotFound(p).value) == NotFound(p)
  {
  }
}

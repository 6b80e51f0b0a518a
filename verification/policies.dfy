/** The policy family: the access decision the resource pipeline asks for
    before each action. `BasePolicy` denies everything, `PublicPolicy`
    allows everything, `SessionPolicy` adds the actor lookup, and
    `OwnerPolicy` / `UserPolicy` decide from the actor and the stored
    record. A policy reports through a callback whose first argument is the
    error; here a decision is `Allow` or `Deny(error)`. */
module Policies {
  import opened Wrappers
  import opened Values
  import opened Errors

  datatype Action = CreateAction | UpdateAction | ListAction | ShowAction | DeleteAction

  /** The two field names the owner and user policies read from the
      session configuration: where the actor's role is and which record
      field names the owner. */
  datatype SessionFields = SessionFields(role: string, association: string)

  /** The session handler the policy's app holds: none at all, or one
      whose `load` reported `error` and after which `data` returns `data`. */
  datatype SessionSource = NoSessionAdapter | SessionLoad(error: Option<Error>, data: Option<Record>)

  datatype Policy =
    | BasePolicy
    | PublicPolicy
    | SessionPolicy
    | OwnerPolicy(disabled: set<Action>, fields: SessionFields)
    | UserPolicy(fields: SessionFields)

  datatype Decision = Allow | Deny(error: Error)

  const PolicyNotImplemented: string := "POLICY_NOT_IMPLEMENTED"
  const SessionMissing: Error := Plain("SESSION_POLICY_APP_SESSION_MISSING")

  /** `forbidden(msg)`: a `ForbiddenError` carrying `msg` (status 403). */
  function Forbidden(msg: MessageArg): (d: Decision)
    ensures d.Deny? && d.error.status == Some(403)
    ensures ArgText(msg) != "" ==> d.error.message == ArgText(msg)
  {
    Deny(Make(Kind.Forbidden, msg))
  }

  /** `unauthorized()`: an `UnauthorizedError` (status 401). */
  function Unauthorized(): (d: Decision)
    ensures d.Deny? && d.error.status == Some(401) && d.error.message == "UNAUTHORIZED"
  {
    Deny(Make(Kind.Unauthorized, NoMessage))
  }

  /** `session(cb)`: without a session handler it reports a missing
      adapter and never loads; a load error is forwarded unchanged;
      otherwise the handler's data, possibly absent, is the actor. */
  function Session(src: SessionSource): (r: Result<Option<Record>, Error>)
    ensures src.NoSessionAdapter? ==> r == Failure(SessionMissing)
    ensures src.SessionLoad? && src.error.Some? ==> r == Failure(src.error.value)
    ensures src.SessionLoad? && src.error.None? ==> r == Success(src.data)
  {
    match src
    case NoSessionAdapter => Failure(SessionMissing)
    case SessionLoad(err, data) =>
      if err.Some? then Failure(err.value) else Success(data)
  }

  /** The owner test of `update`, `show` and `delete`: an admin, or the
      actor whose `id` strictly equals the record's association field. */
  predicate AdminOrOwner(f: SessionFields, actor: Record, record: Record) {
    StrictEquals(Get(actor, f.role), Some(VStr("admin")))
    || StrictEquals(Get(actor, "id"), Get(record, f.association))
  }

  /** The decision of `OwnerPolicy` on an action other than `create`: a
      disabled action is NotFound before any lookup; then the lookup's
      error, then Unauthorized without an actor; `list` needs only an
      actor, the others need `AdminOrOwner`, else a ForbiddenError built
      from `null` (whose message is therefore the text "null"). */
  function OwnerDecision(disabled: set<Action>, f: SessionFields, a: Action, src: SessionSource, record: Record): Decision {
    if a in disabled then Deny(Make(NotFound, NoMessage))
    else match Session(src)
      case Failure(e) => Deny(e)
      case Success(None) => Unauthorized()
      case Success(Some(actor)) =>
        if a == ListAction || a == CreateAction || AdminOrOwner(f, actor, record) then Allow
        else Forbidden(NullMessage)
  }

  /** `UserPolicy.update`: the session handler's data, as the handler
      holds it, must be present; admin or the record itself is allowed,
      anyone else gets Forbidden `FORBIDDEN`. */
  function UserUpdate(f: SessionFields, data: Option<Record>, record: Record): Decision {
    match data
    case None => Unauthorized()
    case Some(actor) =>
      if StrictEquals(Get(actor, f.role), Some(VStr("admin"))) || StrictEquals(Get(actor, "id"), Get(record, "id"))
      then Allow
      else Forbidden(Message("FORBIDDEN"))
  }

  /** The data the session handler holds, as `UserPolicy.update` reads it. */
  function HandlerData(src: SessionSource): Option<Record> {
    match src
    case NoSessionAdapter => None
    case SessionLoad(_, data) => data
  }

  /** `data(req, res)` of the session handlers: it reads `res.locals`, so
      a call without a response object raises a `TypeError` (`None`). */
  function DataCall(locals: Option<Record>, withResponse: bool): Option<Option<Record>> {
    if withResponse then Some(locals) else None
  }

  /** `UserPolicy.update` as written: it calls `data()` with no arguments,
      so with the handlers of this framework it raises before deciding
      (`None`). `UserUpdate` is the decision evidently intended, on the
      data the handler holds. */
  function UserUpdateAsWritten(f: SessionFields, src: SessionSource, record: Record): Option<Decision> {
    match DataCall(HandlerData(src), false)
    case None => None
    case Some(d) => Some(UserUpdate(f, d, record))
  }

  /** The as-written update never reaches a decision, even for an admin
      whom the intended rule allows. */
  lemma UserUpdateAsWrittenRaises(f: SessionFields, actor: Record, record: Record)
    requires Get(actor, f.role) == Some(VStr("admin"))
    ensures UserUpdateAsWritten(f, SessionLoad(None, Some(actor)), record).None?
    ensures UserUpdate(f, HandlerData(SessionLoad(None, Some(actor))), record) == Allow
  {
  }

  /** The decision for `update`, `list`, `show` or `delete` of `record`
      (`list` ignores the record). */
  function Decide(p: Policy, a: Action, src: SessionSource, record: Record): (d: Decision)
    requires a != CreateAction
    ensures p.BasePolicy? ==> d == Deny(Make(Kind.Forbidden, Message(PolicyNotImplemented)))
    ensures p.PublicPolicy? || p.SessionPolicy? ==> d == Allow
    ensures p.UserPolicy? && a != UpdateAction ==> d == Allow
    ensures p.OwnerPolicy? && a in p.disabled ==> d == Deny(Make(NotFound, NoMessage))
    ensures p.OwnerPolicy? && a !in p.disabled && Session(src).Failure? ==> d == Deny(Session(src).error)
    ensures p.OwnerPolicy? && a !in p.disabled && Session(src) == Success(None) ==> d == Unauthorized()
    ensures p.OwnerPolicy? && a !in p.disabled && a != ListAction && Session(src).Success? && Session(src).value.Some? ==>
              (d == Allow <==> AdminOrOwner(p.fields, Session(src).value.value, record))
    ensures p.OwnerPolicy? && a == ListAction && a !in p.disabled && Session(src).Success? && Session(src).value.Some? ==> d == Allow
    ensures p.UserPolicy? && a == UpdateAction && HandlerData(src).None? ==> d == Unauthorized()
    ensures p.UserPolicy? && d.Deny? && HandlerData(src).Some? ==> d.error == Make(Kind.Forbidden, Message("FORBIDDEN"))
  {
    match p
    case BasePolicy => Forbidden(Message(PolicyNotImplemented))
    case PublicPolicy => Allow
    case SessionPolicy => Allow
    case OwnerPolicy(disabled, f) => OwnerDecision(disabled, f, a, src, record)
    case UserPolicy(f) =>
      if a == UpdateAction then UserUpdate(f, HandlerData(src), record) else Allow
  }

  /** `create`: the decision, and the request body as the policy leaves
      it. `OwnerPolicy` stamps the actor's id into the association field
      (removing it when the actor has none) before allowing. */
  datatype CreateVerdict = CreateVerdict(decision: Decision, body: Record)

  function DecideCreate(p: Policy, src: SessionSource, body: Record): (v: CreateVerdict)
    ensures !p.OwnerPolicy? ==> v.body == body
    ensures p.BasePolicy? ==> v.decision == Deny(Make(Kind.Forbidden, Message(PolicyNotImplemented)))
    ensures p.PublicPolicy? || p.SessionPolicy? || p.UserPolicy? ==> v.decision == Allow
    ensures p.OwnerPolicy? ==>
              (v.decision == Allow <==>
                 CreateAction !in p.disabled && Session(src).Success? && Session(src).value.Some?)
    ensures p.OwnerPolicy? && v.decision == Allow ==>
              v.body == Put(body, p.fields.association, Get(Session(src).value.value, "id"))
    ensures v.decision.Deny? ==> v.body == body
  {
    match p
    case BasePolicy => CreateVerdict(Forbidden(Message(PolicyNotImplemented)), body)
    case OwnerPolicy(disabled, f) =>
      var d := OwnerDecision(disabled, f, CreateAction, src, body);
      if d.Allow? then CreateVerdict(Allow, Put(body, f.association, Get(Session(src).value.value, "id")))
      else CreateVerdict(d, body)
    case _ => CreateVerdict(Allow, body)
  }

  // ---------------------------------------------------------------------
  // properties

  /** The base policy's refusal does not depend on the record or session. */
  lemma BaseDeniesUniformly(a: Action, src1: SessionSource, r1: Record, src2: SessionSource, r2: Record)
    requires a != CreateAction
    ensures Decide(BasePolicy, a, src1, r1) == Decide(BasePolicy, a, src2, r2) == DecideCreate(BasePolicy, src1, r1).decision
    ensures Decide(BasePolicy, a, src1, r1).error.status == Some(403)
  {
  }

  /** Admin wins: an admin actor is allowed on every enabled owner action,
      whatever the record's owner. */
  lemma OwnerAdminWins(disabled: set<Action>, f: SessionFields, a: Action, actor: Record, record: Record)
    requires a != CreateAction && a !in disabled
    requires Get(actor, f.role) == Some(VStr("admin"))
    ensures Decide(OwnerPolicy(disabled, f), a, SessionLoad(None, Some(actor)), record) == Allow
  {
  }

  /** The owner of a record, identified by a primitive id, is allowed. */
  lemma OwnerOwnRecord(disabled: set<Action>, f: SessionFields, a: Action, actor: Record, record: Record)
    requires a != CreateAction && a !in disabled
    requires f.association in record && Get(actor, "id") == Some(record[f.association])
    requires !record[f.association].VNaN? && !record[f.association].VDate?
    ensures Decide(OwnerPolicy(disabled, f), a, SessionLoad(None, Some(actor)), record) == Allow
  {
  }

  /** A record created under the owner policy belongs to its creator: the
      same actor is then allowed to update, show and delete it. */
  lemma OwnerCreatedIsOwned(disabled: set<Action>, f: SessionFields, a: Action, actor: Record, body: Record)
    requires a != CreateAction && a !in disabled && CreateAction !in disabled
    requires "id" in actor && !actor["id"].VNaN? && !actor["id"].VDate?
    ensures var v := DecideCreate(OwnerPolicy(disabled, f), SessionLoad(None, Some(actor)), body);
            v.decision == Allow
            && Decide(OwnerPolicy(disabled, f), a, SessionLoad(None, Some(actor)), v.body) == Allow
  {
  }

  /** A non-admin stranger is refused with a 403 whose message is the
      text "null", which the apps answer as an opaque 500. */
  lemma OwnerStrangerForbidden(disabled: set<Action>, f: SessionFields, a: Action, actor: Record, record: Record)
    requires a != CreateAction && a != ListAction && a !in disabled
    requires Get(actor, f.role) != Some(VStr("admin"))
    requires Get(actor, "id") != Get(record, f.association)
    ensures Decide(OwnerPolicy(disabled, f), a, SessionLoad(None, Some(actor)), record)
            == Deny(Error("null", Some(403)))
  {
  }

  /** Every owner action, `create` included, needs an actor. */
  lemma OwnerNeedsActor(disabled: set<Action>, f: SessionFields, a: Action, record: Record)
    requires a !in disabled
    ensures a != CreateAction ==> Decide(OwnerPolicy(disabled, f), a, SessionLoad(None, None), record) == Unauthorized()
    ensures CreateAction !in disabled ==>
              DecideCreate(OwnerPolicy(disabled, f), SessionLoad(None, None), record).decision == Unauthorized()
  {
  }

  /** The user policy: `update` allowed iff admin or self; `list`, `show`
      and `delete` allowed even without a session. */
  lemma UserUpdateAdminOrSelf(f: SessionFields, actor: Record, record: Record)
    requires "id" in record && !record["id"].VNaN? && !record["id"].VDate?
    ensures Decide(UserPolicy(f), UpdateAction, SessionLoad(None, Some(actor)), record) == Allow <==>
              Get(actor, f.role) == Some(VStr("admin")) || Get(actor, "id") == Some(record["id"])
  {
  }
}

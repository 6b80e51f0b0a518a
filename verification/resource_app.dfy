/** The resource CRUD pipeline: each verb a sequence of stages (lookup,
    policy, body preparation, validation, timestamps, write, reply) that
    stops at the first error and hands it to the error translator. It runs
    against the in-memory store, so every handler maps a store and a
    request to a new store and a reply. */
module ResourceApp {
  import opened Wrappers
  import opened Values
  import opened Errors
  import opened Http
  import opened MockDatabase
  import opened Policies
  import BaseApp

  // ---------------------------------------------------------------------
  // configuration

  /** The `timestamps` option: the `enabled` flag as given and the two
      field names, `""` when not configured. */
  datatype Timestamps = Timestamps(enabled: Option<Value>, created: string, updated: string)

  /** The three hooks a subclass overrides. `sanitize` and `parseRecord`
      rewrite a record in place; `validate` reports an error or none. The
      defaults do nothing. */
  datatype Hooks = Hooks(sanitize: Record -> Record, validate: Record -> Option<Error>, parseRecord: Record -> Record)

  function DefaultHooks(): Hooks {
    Hooks(r => r, r => None, r => r)
  }

  /** Hooks that leave records as they are (the defaults behave so). */
  ghost predicate Transparent(h: Hooks) {
    forall r :: h.sanitize(r) == r && h.parseRecord(r) == r
  }

  datatype Config = Config(table: string, policy: Policy, timestamps: Timestamps, hooks: Hooks)

  datatype Options = Options(
    base: BaseApp.Options,
    database: bool,
    table: string,
    policy: Option<Policy>,
    timestamps: Option<Timestamps>)

  /** The constructor's timestamp rule: no option means disabled; naming a
      `created` or `updated` field switches them on. */
  function NormalizeTimestamps(o: Option<Timestamps>): (t: Timestamps)
    ensures o.None? ==> t == Timestamps(Some(VBool(false)), "", "")
    ensures o.Some? ==> t.created == o.value.created && t.updated == o.value.updated
    ensures t.created != "" || t.updated != "" ==> t.enabled == Some(VBool(true))
    ensures o.Some? && t.created == "" && t.updated == "" ==> t == o.value
  {
    match o
    case None => Timestamps(Some(VBool(false)), "", "")
    case Some(t) => if t.created != "" || t.updated != "" then t.(enabled := Some(VBool(true))) else t
  }

  /** `new ResourceApp(options)`: the base checks, then a database and a
      table are required; the policy defaults to `PublicPolicy`. */
  function New(o: Option<Options>, hooks: Hooks): (r: Result<Config, Error>)
    ensures o.None? ==> r.Failure? && r.error == Plain("APP_OPTIONS_REQUIRED")
    ensures o.Some? && !o.value.base.router ==> r.Failure? && r.error == Plain("APP_ROUTER_REQUIRED")
    ensures o.Some? && o.value.base.router && !o.value.database ==>
              r.Failure? && r.error == Plain("RESOURCE_APP_DATABASE_ADAPTER_REQUIRED")
    ensures o.Some? && o.value.base.router && o.value.database && o.value.table == "" ==>
              r.Failure? && r.error == Plain("RESOURCE_APP_TABLE_REQUIRED")
    ensures r.Success? <==> o.Some? && o.value.base.router && o.value.database && o.value.table != ""
    ensures r.Success? ==> r.value.table == o.value.table && r.value.policy == o.value.policy.GetOr(PublicPolicy)
    ensures r.Success? ==> r.value.timestamps == NormalizeTimestamps(o.value.timestamps)
  {
    var base := BaseApp.New(if o.None? then None else Some(o.value.base));
    if base.Failure? then Failure(base.error)
    else if !o.value.database then Failure(Plain("RESOURCE_APP_DATABASE_ADAPTER_REQUIRED"))
    else if o.value.table == "" then Failure(Plain("RESOURCE_APP_TABLE_REQUIRED"))
    else Success(Config(o.value.table, o.value.policy.GetOr(PublicPolicy), NormalizeTimestamps(o.value.timestamps), hooks))
  }

  // ---------------------------------------------------------------------
  // timestamps

  /** Whether `timestamp` writes field `k`. */
  predicate Stamps(t: Timestamps, k: string) {
    k != "" && (k == t.created || k == t.updated)
  }

  /** `timestamp(record)` at instant `now`: nothing when disabled;
      otherwise `created` is set only when falsy, `updated` always, both
      to the same instant, and no other field changes. */
  function Timestamp(t: Timestamps, r: Record, now: int): (r': Record)
    ensures t.enabled == Some(VBool(false)) ==> r' == r
    ensures t.enabled != Some(VBool(false)) && t.created != "" && !Truthy(Get(r, t.created)) ==>
              Get(r', t.created) == Some(VDate(now))
    ensures t.enabled != Some(VBool(false)) && t.created != "" && Truthy(Get(r, t.created)) && t.created != t.updated ==>
              Get(r', t.created) == Get(r, t.created)
    ensures t.enabled != Some(VBool(false)) && t.updated != "" ==> Get(r', t.updated) == Some(VDate(now))
    ensures forall k :: !Stamps(t, k) ==> Get(r', k) == Get(r, k)
  {
    if t.enabled == Some(VBool(false)) then r
    else
      var r1 := if t.created != "" && !Truthy(Get(r, t.created)) then r[t.created := VDate(now)] else r;
      if t.updated != "" then r1[t.updated := VDate(now)] else r1
  }

  // ---------------------------------------------------------------------
  // requests and replies

  /** What a handler reads from the request: the JSON body, the id the
      router extracted from the path, what the session handler yields,
      and the clock reading `timestamp` uses. */
  datatype Request = Request(body: Record, resourceId: Option<string>, session: SessionSource, now: int)

  datatype Response = Response(store: Store, reply: Reply)

  /** The id condition's value: the path's id as a string. */
  function IdValue(resourceId: Option<string>): Option<Value> {
    match resourceId
    case Some(id) => Some(VStr(id))
    case None => None
  }

  /** The store and the first record of a lookup by the path's id. */
  datatype Found = Found(store: Store, record: Option<Record>)

  function Lookup(c: Config, s: Store, req: Request): (f: Found)
    ensures f.store == GetTable(s, c.table)
    ensures var t := Table(s, c.table);
            var k := ParseInt(IdValue(req.resourceId));
            (f.record.Some? <==> FirstIndex(t, k).Some?)
            && (f.record.Some? ==> f.record.value == t[FirstIndex(t, k).value])
  {
    var q := Query(s, c.table, [IdCondition(IdValue(req.resourceId))]);
    QueryByIdFindsFirst(Table(s, c.table), IdValue(req.resourceId));
    Found(q.store, if |q.results| == 0 then None else Some(q.results[0]))
  }

  /** The error a failed lookup reports. */
  const NotFoundError: Error := Make(NotFound, NoMessage)

  function Fail(s: Store, e: Error): Response {
    Response(s, BaseApp.ErrorReply(e))
  }

  /** Two stores holding the same rows and the same counter: only the set
      of registered (possibly empty) tables may differ. */
  ghost predicate SameRows(s1: Store, s2: Store) {
    s1.nextId == s2.nextId && forall t :: Table(s1, t) == Table(s2, t)
  }

  /** Registering a table, once or twice, keeps the rows. */
  lemma RegisteredSameRows(s: Store, name: string)
    ensures SameRows(GetTable(s, name), s)
    ensures SameRows(GetTable(GetTable(s, name), name), s)
  {
  }

  // ---------------------------------------------------------------------
  // POST

  /** The record a successful create stores under `id`. */
  function CreatedRecord(c: Config, body: Record, now: int, id: nat): Record {
    Put(Timestamp(c.timestamps, body, now), "id", Some(VNum(id)))
  }

  /** POST: the policy first (an owner policy may stamp the owner into the
      body); on allow `sanitize`, drop any client `id`, `validate`, stamp,
      insert, and answer 201 with the parsed record carrying the new id.
      A refusal or invalid body leaves the store untouched. */
  function Create(c: Config, s: Store, req: Request): (r: Response)
    ensures var v := DecideCreate(c.policy, req.session, req.body);
            v.decision.Deny? ==> r == Fail(s, v.decision.error)
    ensures r.reply.status == 201 <==>
              var v := DecideCreate(c.policy, req.session, req.body);
              v.decision.Allow? && c.hooks.validate(Strip(c.hooks.sanitize(v.body), {"id"})).None?
    ensures r.reply.status != 201 ==> r.store == s
    ensures r.reply.status == 201 ==>
              var v := DecideCreate(c.policy, req.session, req.body);
              var stored := CreatedRecord(c, Strip(c.hooks.sanitize(v.body), {"id"}), req.now, s.nextId + 1);
              r.store.nextId == s.nextId + 1
              && Table(r.store, c.table) == Table(s, c.table) + [stored]
              && (forall t :: t != c.table ==> Table(r.store, t) == Table(s, t))
              && r.reply == Json(201, c.hooks.parseRecord(stored))
  {
    var v := DecideCreate(c.policy, req.session, req.body);
    if v.decision.Deny? then Fail(s, v.decision.error)
    else
      var body := Strip(c.hooks.sanitize(v.body), {"id"});
      match c.hooks.validate(body)
      case Some(e) => Fail(s, e)
      case None =>
        var stamped := Timestamp(c.timestamps, body, req.now);
        var ins := Insert(s, c.table, stamped);
        Response(ins.store, Json(201, c.hooks.parseRecord(stamped["id" := VNum(ins.id)])))
  }

  // ---------------------------------------------------------------------
  // PUT and PATCH

  /** The body PUT writes, as written: the client's body with the stored
      `created` value copied over any client value. A client `id` stays. */
  function PutBodyAsWritten(c: Config, body: Record, record: Record): (b: Record)
    ensures c.timestamps.created != "" ==> Get(b, c.timestamps.created) == Get(record, c.timestamps.created)
    ensures forall k :: k != c.timestamps.created ==> Get(b, k) == Get(body, k)
  {
    if c.timestamps.created != "" then Put(body, c.timestamps.created, Get(record, c.timestamps.created)) else body
  }

  /** The body PUT evidently should write: as above, without the client
      `id`, as PATCH already does. */
  function PutBody(c: Config, body: Record, record: Record): (b: Record)
    ensures "id" !in b
    ensures c.timestamps.created != "" && c.timestamps.created != "id" ==>
              Get(b, c.timestamps.created) == Get(record, c.timestamps.created)
    ensures forall k :: k != "id" && k != c.timestamps.created ==> Get(b, k) == Get(body, k)
  {
    Strip(PutBodyAsWritten(c, body, record), {"id"})
  }

  /** The body PATCH writes: the body merged onto the stored record,
      without `id`. */
  function PatchBody(body: Record, record: Record): (b: Record)
    ensures "id" !in b
    ensures forall k :: k != "id" && k in body ==> Get(b, k) == Get(body, k)
    ensures forall k :: k != "id" && k !in body ==> Get(b, k) == Get(record, k)
  {
    Strip(Merge(record, body), {"id"})
  }

  /** The stages after the policy allowed a replace of `record` with the
      prepared `body`: sanitize, validate, stamp, write through the store's
      `replace` under the path's id, and answer 200 with the written body
      whose `id` is the path's id. */
  function Write(c: Config, s: Store, req: Request, body: Record): (r: Response)
    ensures r.reply.status != 200 ==> r.store == s || r.store == GetTable(s, c.table)
    ensures (c.hooks.validate(c.hooks.sanitize(body)).None?
             && FirstIndex(Table(s, c.table), ParseInt(IdValue(req.resourceId))).Some?) ==> r.reply.status == 200
    ensures r.reply.status == 200 ==>
              var stamped := Timestamp(c.timestamps, c.hooks.sanitize(body), req.now);
              var t := Table(s, c.table);
              var i := FirstIndex(t, ParseInt(IdValue(req.resourceId)));
              c.hooks.validate(c.hooks.sanitize(body)).None? && i.Some?
              && r.store.nextId == s.nextId
              && Table(r.store, c.table) == t[i.value := Merge(t[i.value], stamped)]
              && r.reply == Json(200, c.hooks.parseRecord(Put(stamped, "id", IdValue(req.resourceId))))
  {
    var sanitized := c.hooks.sanitize(body);
    match c.hooks.validate(sanitized)
    case Some(e) => Fail(s, e)
    case None =>
      var stamped := Timestamp(c.timestamps, sanitized, req.now);
      var w := MockDatabase.Replace(s, c.table, IdValue(req.resourceId), stamped);
      if w.error.Some? then Fail(w.store, w.error.value)
      else Response(w.store, Json(200, c.hooks.parseRecord(Put(stamped, "id", IdValue(req.resourceId)))))
  }

  /** PUT (`partial` false) and PATCH (`partial` true): look the record up
      by the path's id (404 without asking the policy when absent), ask
      `policy.update` with the stored record, then prepare the body and
      write it. */
  function Replace(c: Config, s: Store, req: Request, partial: bool): (r: Response)
    ensures Lookup(c, s, req).record.None? ==> r == Fail(GetTable(s, c.table), NotFoundError)
    ensures Lookup(c, s, req).record.Some? && Decide(c.policy, UpdateAction, req.session, Lookup(c, s, req).record.value).Deny? ==>
              r == Fail(GetTable(s, c.table), Decide(c.policy, UpdateAction, req.session, Lookup(c, s, req).record.value).error)
    ensures r.reply.status != 200 ==> SameRows(r.store, s)
    ensures r.reply.status == 200 ==>
              Lookup(c, s, req).record.Some?
              && Decide(c.policy, UpdateAction, req.session, Lookup(c, s, req).record.value).Allow?
  {
    RegisteredSameRows(s, c.table);
    var f := Lookup(c, s, req);
    match f.record
    case None => Fail(f.store, NotFoundError)
    case Some(record) =>
      match Decide(c.policy, UpdateAction, req.session, record)
      case Deny(e) => Fail(f.store, e)
      case Allow =>
        Write(c, f.store, req, if partial then PatchBody(req.body, record) else PutBody(c, req.body, record))
  }

  /** PUT as written, keeping a client `id` in the written body. */
  function ReplaceAsWritten(c: Config, s: Store, req: Request): (r: Response)
    ensures r.reply.status != 200 ==> SameRows(r.store, s)
  {
    RegisteredSameRows(s, c.table);
    var f := Lookup(c, s, req);
    match f.record
    case None => Fail(f.store, NotFoundError)
    case Some(record) =>
      match Decide(c.policy, UpdateAction, req.session, record)
      case Deny(e) => Fail(f.store, e)
      case Allow => Write(c, f.store, req, PutBodyAsWritten(c, req.body, record))
  }

  // ---------------------------------------------------------------------
  // GET, DELETE

  function MapRecords(f: Record -> Record, rs: seq<Record>): (out: seq<Record>)
    ensures |out| == |rs| && forall i :: 0 <= i < |rs| ==> out[i] == f(rs[i])
  {
    seq(|rs|, i requires 0 <= i < |rs| => f(rs[i]))
  }

  /** GET without an id: `policy.list`, then the whole table, each record
      passed through `parseRecord`, answered 200. The rows are read, not
      written. */
  function List(c: Config, s: Store, req: Request): (r: Response)
    ensures SameRows(r.store, s)
    ensures Decide(c.policy, ListAction, req.session, map[]).Deny? ==>
              r == Fail(s, Decide(c.policy, ListAction, req.session, map[]).error)
    ensures Decide(c.policy, ListAction, req.session, map[]).Allow? ==>
              r.reply == Reply(200, [], JsonList(MapRecords(c.hooks.parseRecord, Table(s, c.table))))
  {
    match Decide(c.policy, ListAction, req.session, map[])
    case Deny(e) => Fail(s, e)
    case Allow =>
      var q := Query(s, c.table, []);
      Response(q.store, Reply(200, [], JsonList(MapRecords(c.hooks.parseRecord, q.results))))
  }

  /** GET without an id as written: the store hands out its live rows and
      `parseList` rewrites each in place, so the stored rows become the
      parsed ones. */
  function ListAsWritten(c: Config, s: Store, req: Request): (r: Response)
    ensures r.reply == List(c, s, req).reply
  {
    match Decide(c.policy, ListAction, req.session, map[])
    case Deny(e) => Fail(s, e)
    case Allow =>
      var q := Query(s, c.table, []);
      var parsed := MapRecords(c.hooks.parseRecord, q.results);
      Response(Store(q.store.tables[c.table := parsed], q.store.nextId), Reply(200, [], JsonList(parsed)))
  }

  /** GET with an id: lookup (404 when absent), `policy.show`, then 200
      with the parsed stored record. Nothing is written. */
  function Show(c: Config, s: Store, req: Request): (r: Response)
    ensures r.store == GetTable(s, c.table)
    ensures Lookup(c, s, req).record.None? ==> r.reply == BaseApp.ErrorReply(NotFoundError)
    ensures r.reply.status == 200 <==>
              Lookup(c, s, req).record.Some? && Decide(c.policy, ShowAction, req.session, Lookup(c, s, req).record.value).Allow?
    ensures r.reply.status == 200 ==> r.reply == Json(200, c.hooks.parseRecord(Lookup(c, s, req).record.value))
  {
    var f := Lookup(c, s, req);
    match f.record
    case None => Fail(f.store, NotFoundError)
    case Some(record) =>
      match Decide(c.policy, ShowAction, req.session, record)
      case Deny(e) => Fail(f.store, e)
      case Allow => Response(f.store, Json(200, c.hooks.parseRecord(record)))
  }

  /** DELETE: lookup (404 when absent), `policy.delete`, then delete by
      the stored record's own id and answer through `empty` (204). */
  function Delete(c: Config, s: Store, req: Request): (r: Response)
    ensures Lookup(c, s, req).record.None? ==> r == Fail(GetTable(s, c.table), NotFoundError)
    ensures r.reply.status != 204 ==> SameRows(r.store, s)
    ensures r.reply.status == 204 ==>
              Lookup(c, s, req).record.Some?
              && var w := MockDatabase.Delete(GetTable(s, c.table), c.table, Get(Lookup(c, s, req).record.value, "id"));
                 w.error.None? && r.store == w.store
  {
    var f := Lookup(c, s, req);
    match f.record
    case None => Fail(f.store, NotFoundError)
    case Some(record) =>
      match Decide(c.policy, DeleteAction, req.session, record)
      case Deny(e) => Fail(f.store, e)
      case Allow =>
        var w := MockDatabase.Delete(f.store, c.table, Get(record, "id"));
        Response(w.store, BaseApp.Empty(w.error))
  }

  // ---------------------------------------------------------------------
  // setResourceId

  /** The path with every leading `/` removed. */
  function StripSlashes(p: string): (q: string)
    ensures |q| <= |p| && q == p[|p| - |q|..]
    ensures forall i :: 0 <= i < |p| - |q| ==> p[i] == '/'
    ensures |q| > 0 ==> q[0] != '/'
    decreases |p|
  {
    if |p| > 0 && p[0] == '/' then StripSlashes(p[1..]) else p
  }

  /** `setResourceId`: a non-empty string URL, stripped of its leading
      slashes (possibly to `""`), becomes the resource id; otherwise the
      id keeps its previous value, unset on a fresh request. */
  function SetResourceId(url: Option<string>, previous: Option<string>): (id: Option<string>)
    ensures url.None? || url == Some("") ==> id == previous
    ensures url.Some? && url.value != "" ==> id == Some(StripSlashes(url.value))
  {
    if url.Some? && |url.value| > 0 then Some(StripSlashes(url.value)) else previous
  }

  /** The `while (path[0] === '/') path = path.slice(1)` loop. */
  method StripSlashesLoop(p: string) returns (q: string)
    ensures q == StripSlashes(p)
  {
    q := p;
    while |q| > 0 && q[0] == '/'
      invariant StripSlashes(q) == StripSlashes(p)
      decreases |q|
    {
      q := q[1..];
    }
  }
}

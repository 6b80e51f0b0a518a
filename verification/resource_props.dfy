/** Properties of the resource pipeline that relate several stages or
    several requests: timestamps, PATCH/PUT field preservation, the id
    invariant across every verb, create-then-show and delete-twice, and the
    two places where the code as written departs from the evident intent
    (a client `id` in a PUT body, and a list that rewrites the store). */
module ResourceProperties {
  import opened Wrappers
  import opened Values
  import opened Errors
  import opened Http
  import opened MockDatabase
  import opened Policies
  import opened ResourceApp
  import BaseApp

  // ---------------------------------------------------------------------
  // timestamps

  /** Timestamps act exactly when a `created` or `updated` field is named:
      without one every record passes through unchanged, with one the
      empty record gets stamped. */
  lemma TimestampActsIffNamed(o: Option<Timestamps>, now: int)
    ensures (forall r :: Timestamp(NormalizeTimestamps(o), r, now) == r) <==>
              (o.None? || (o.value.created == "" && o.value.updated == ""))
  {
    var t := NormalizeTimestamps(o);
    if o.Some? && (o.value.created != "" || o.value.updated != "") {
      var e: Record := map[];
      if t.created != "" {
        assert Get(Timestamp(t, e, now), t.created) == Some(VDate(now));
      } else {
        assert Get(Timestamp(t, e, now), t.updated) == Some(VDate(now));
      }
      assert Timestamp(t, e, now) != e;
    }
  }

  /** A record stamped for the first time gets one instant in both fields. */
  lemma TimestampSameInstant(t: Timestamps, r: Record, now: int)
    requires t.enabled != Some(VBool(false)) && t.created != "" && t.updated != ""
    requires !Truthy(Get(r, t.created))
    ensures Get(Timestamp(t, r, now), t.created) == Get(Timestamp(t, r, now), t.updated) == Some(VDate(now))
  {
  }

  // ---------------------------------------------------------------------
  // the lookup and the store's replace agree

  /** The record the lookup found is the record the store's `replace` and
      `delete` act on: both use the first record whose id is the coerced
      path id. */
  lemma LookupIsFirstIndex(c: Config, s: Store, req: Request)
    requires Lookup(c, s, req).record.Some?
    ensures var t := Table(s, c.table);
            var i := FirstIndex(t, ParseInt(IdValue(req.resourceId)));
            i.Some? && Lookup(c, s, req).record.value == t[i.value]
  {
  }

  /** Once found and allowed, PUT and PATCH hand the prepared body to the
      write stage. */
  lemma ReplaceAllowed(c: Config, s: Store, req: Request, partial: bool)
    requires ResourceApp.Replace(c, s, req, partial).reply.status == 200
    ensures Lookup(c, s, req).record.Some?
    ensures var rec := Lookup(c, s, req).record.value;
            ResourceApp.Replace(c, s, req, partial)
            == Write(c, GetTable(s, c.table), req, if partial then PatchBody(req.body, rec) else PutBody(c, req.body, rec))
  {
  }

  lemma ReplaceWrites(c: Config, s: Store, req: Request, partial: bool)
    requires ResourceApp.Replace(c, s, req, partial).reply.status == 200
    ensures Lookup(c, s, req).record.Some?
    ensures var rec := Lookup(c, s, req).record.value;
            var body := if partial then PatchBody(req.body, rec) else PutBody(c, req.body, rec);
            var stamped := Timestamp(c.timestamps, c.hooks.sanitize(body), req.now);
            var t := Table(s, c.table);
            var i := FirstIndex(t, ParseInt(IdValue(req.resourceId))).value;
            c.hooks.validate(c.hooks.sanitize(body)).None?
            && Decide(c.policy, UpdateAction, req.session, rec).Allow?
            && Table(ResourceApp.Replace(c, s, req, partial).store, c.table) == t[i := Merge(t[i], stamped)]
            && ResourceApp.Replace(c, s, req, partial).reply
               == Json(200, c.hooks.parseRecord(Put(stamped, "id", IdValue(req.resourceId))))
  {
    ReplaceAllowed(c, s, req, partial);
  }

  /** PATCH keeps every field the body does not mention (other than the
      timestamp fields), both in the store and in the reply. */
  lemma PatchKeepsUntouched(c: Config, s: Store, req: Request, k: string)
    requires Transparent(c.hooks)
    requires ResourceApp.Replace(c, s, req, true).reply.status == 200
    requires k != "id" && k !in req.body && !Stamps(c.timestamps, k)
    ensures Lookup(c, s, req).record.Some?
    ensures var rec := Lookup(c, s, req).record.value;
            var t := Table(s, c.table);
            var i := FirstIndex(t, ParseInt(IdValue(req.resourceId))).value;
            Get(Table(ResourceApp.Replace(c, s, req, true).store, c.table)[i], k) == Get(rec, k)
            && Get(ResourceApp.Replace(c, s, req, true).reply.body.record, k) == Get(rec, k)
  {
    ReplaceWrites(c, s, req, true);
  }

  /** PATCH writes every field the body carries (other than `id` and the
      timestamp fields). */
  lemma PatchWritesGiven(c: Config, s: Store, req: Request, k: string)
    requires Transparent(c.hooks)
    requires ResourceApp.Replace(c, s, req, true).reply.status == 200
    requires k != "id" && k in req.body && !Stamps(c.timestamps, k)
    ensures var t := Table(s, c.table);
            var i := FirstIndex(t, ParseInt(IdValue(req.resourceId))).value;
            Get(Table(ResourceApp.Replace(c, s, req, true).store, c.table)[i], k) == Some(req.body[k])
            && Get(ResourceApp.Replace(c, s, req, true).reply.body.record, k) == Some(req.body[k])
  {
    ReplaceWrites(c, s, req, true);
  }

  /** PUT keeps the stored `created` value whatever the client sent, in
      the store and in the reply, as long as it was set. */
  lemma PutKeepsCreated(c: Config, s: Store, req: Request)
    requires Transparent(c.hooks)
    requires ResourceApp.Replace(c, s, req, false).reply.status == 200
    requires c.timestamps.created != "" && c.timestamps.created != "id" && c.timestamps.created != c.timestamps.updated
    requires Truthy(Get(Lookup(c, s, req).record.value, c.timestamps.created))
    ensures var rec := Lookup(c, s, req).record.value;
            var created := c.timestamps.created;
            var t := Table(s, c.table);
            var i := FirstIndex(t, ParseInt(IdValue(req.resourceId))).value;
            Get(Table(ResourceApp.Replace(c, s, req, false).store, c.table)[i], created) == Get(rec, created)
            && Get(ResourceApp.Replace(c, s, req, false).reply.body.record, created) == Get(rec, created)
  {
    ReplaceWrites(c, s, req, false);
  }

  /** PUT answers with the client's body only, but the store merges: a
      stored field the body omits disappears from the reply and survives
      in the store. */
  lemma PutReplyVersusStore(c: Config, s: Store, req: Request, k: string)
    requires Transparent(c.hooks)
    requires ResourceApp.Replace(c, s, req, false).reply.status == 200
    requires k != "id" && k != c.timestamps.created && k !in req.body && !Stamps(c.timestamps, k)
    ensures var rec := Lookup(c, s, req).record.value;
            var t := Table(s, c.table);
            var i := FirstIndex(t, ParseInt(IdValue(req.resourceId))).value;
            Get(ResourceApp.Replace(c, s, req, false).reply.body.record, k).None?
            && Get(Table(ResourceApp.Replace(c, s, req, false).store, c.table)[i], k) == Get(rec, k)
  {
    ReplaceWrites(c, s, req, false);
  }

  // ---------------------------------------------------------------------
  // the id invariant across the pipeline

  lemma CreatePreservesIds(c: Config, s: Store, req: Request)
    requires WellFormed(s)
    ensures WellFormed(ResourceApp.Create(c, s, req).store)
  {
    var v := DecideCreate(c.policy, req.session, req.body);
    if v.decision.Allow? {
      var body := Strip(c.hooks.sanitize(v.body), {"id"});
      if c.hooks.validate(body).None? {
        InsertPreservesWellFormed(s, c.table, Timestamp(c.timestamps, body, req.now));
      }
    }
  }

  /** The corrected PUT and PATCH keep ids issued and distinct, as long as
      `sanitize` does not invent an `id` and no timestamp field is `id`. */
  lemma ReplacePreservesIds(c: Config, s: Store, req: Request, partial: bool)
    requires WellFormed(s)
    requires forall r: Record :: "id" !in r ==> "id" !in c.hooks.sanitize(r)
    requires !Stamps(c.timestamps, "id")
    ensures WellFormed(ResourceApp.Replace(c, s, req, partial).store)
  {
    var f := Lookup(c, s, req);
    GetTablePreservesWellFormed(s, c.table);
    if f.record.Some? && Decide(c.policy, UpdateAction, req.session, f.record.value).Allow? {
      var rec := f.record.value;
      var body := if partial then PatchBody(req.body, rec) else PutBody(c, req.body, rec);
      var sanitized := c.hooks.sanitize(body);
      if c.hooks.validate(sanitized).None? {
        var stamped := Timestamp(c.timestamps, sanitized, req.now);
        assert Get(stamped, "id") == Get(sanitized, "id");
        MockDatabase.ReplacePreservesWellFormed(f.store, c.table, ParseInt(IdValue(req.resourceId)), stamped);
      }
    }
  }

  lemma DeletePreservesIds(c: Config, s: Store, req: Request)
    requires WellFormed(s)
    ensures WellFormed(ResourceApp.Delete(c, s, req).store)
  {
    var f := Lookup(c, s, req);
    GetTablePreservesWellFormed(s, c.table);
    if f.record.Some? {
      MockDatabase.DeletePreservesWellFormed(f.store, c.table, ParseInt(Get(f.record.value, "id")));
    }
  }

  lemma ReadsPreserveIds(c: Config, s: Store, req: Request)
    requires WellFormed(s)
    ensures WellFormed(List(c, s, req).store) && WellFormed(Show(c, s, req).store)
  {
    GetTablePreservesWellFormed(s, c.table);
  }

  // ---------------------------------------------------------------------
  // request sequences

  /** In a well-formed store the record a lookup finds carries a numeric
      id, and re-coercing that id gives the key it was found by. */
  lemma FoundIdIsKey(c: Config, s: Store, req: Request)
    requires WellFormed(s)
    requires Lookup(c, s, req).record.Some?
    ensures var rec := Lookup(c, s, req).record.value;
            "id" in rec && rec["id"].VNum?
            && ParseInt(Some(rec["id"])) == ParseInt(IdValue(req.resourceId))
  {
    var t := Table(s, c.table);
    var k := ParseInt(IdValue(req.resourceId));
    WellFormedTable(s, c.table);
    IssuedIdIsKey(t, s.nextId, k, FirstIndex(t, k).value);
  }

  /** A record of an issued table matched by `k` has the numeric id `k`,
      which survives a trip through its text. */
  lemma IssuedIdIsKey(t: seq<Record>, n: nat, k: Value, i: nat)
    requires IdsIssued(t, n) && i < |t| && IdIs(t[i], k)
    ensures "id" in t[i] && t[i]["id"].VNum? && ParseInt(Some(t[i]["id"])) == k
  {
    ParseIntOfIntToString(t[i]["id"].n);
  }

  /** A successful DELETE removes the record the lookup key finds. */
  lemma DeleteRemovesKey(c: Config, s: Store, req: Request)
    requires WellFormed(s)
    requires ResourceApp.Delete(c, s, req).reply.status == 204
    ensures var w := DeleteKey(GetTable(s, c.table), c.table, ParseInt(IdValue(req.resourceId)));
            w.error.None? && ResourceApp.Delete(c, s, req).store == w.store
  {
    var rec := Lookup(c, s, req).record.value;
    FoundIdIsKey(c, s, req);
    assert Get(rec, "id") == Some(rec["id"]);
  }

  /** A DELETE whose lookup finds nothing answers 404. */
  lemma AbsentDeleteIs404(c: Config, s: Store, req: Request)
    requires Lookup(c, s, req).record.None?
    ensures ResourceApp.Delete(c, s, req).reply == Status(404)
  {
    BaseApp.NotFoundAnswers404(NoMessage);
  }

  /** Deleting the same path twice: the second request answers 404. */
  lemma DeleteTwice404(c: Config, s: Store, req: Request)
    requires WellFormed(s)
    requires ResourceApp.Delete(c, s, req).reply.status == 204
    ensures ResourceApp.Delete(c, ResourceApp.Delete(c, s, req).store, req).reply == Status(404)
  {
    var k := ParseInt(IdValue(req.resourceId));
    DeleteRemovesKey(c, s, req);
    GetTablePreservesWellFormed(s, c.table);
    MockDatabase.DeleteTwiceNotFound(GetTable(s, c.table), c.table, k);
    var s1 := ResourceApp.Delete(c, s, req).store;
    assert FirstIndex(Table(s1, c.table), k).None?;
    AbsentDeleteIs404(c, s1, req);
  }

  /** No record of a well-formed store carries an id beyond the counter. */
  lemma {:induction false} FreshIdAbsent(t: seq<Record>, n: nat, id: nat)
    requires IdsIssued(t, n) && id > n
    ensures FirstIndex(t, VNum(id)).None?
  {
    forall j | 0 <= j < |t|
      ensures !IdIs(t[j], VNum(id))
    {
      assert t[j]["id"].n <= n;
    }
  }

  /** A record appended with the next id is the first, and only, match
      for that id. */
  lemma FreshIdFoundLast(t: seq<Record>, n: nat, stored: Record)
    requires IdsIssued(t, n) && IdIs(stored, VNum(n + 1))
    ensures FirstIndex(t + [stored], VNum(n + 1)) == Some(|t|)
  {
    FreshIdAbsent(t, n, n + 1);
    var t' := t + [stored];
    forall j | 0 <= j < |t|
      ensures !IdIs(t'[j], VNum(n + 1))
    {
      assert t'[j] == t[j];
    }
    assert IdIs(t'[|t|], VNum(n + 1));
  }

  /** Under the public policy a found record is shown. */
  lemma PublicShowsFound(c: Config, s: Store, req: Request)
    requires c.policy == PublicPolicy && Lookup(c, s, req).record.Some?
    ensures Show(c, s, req).reply == Json(200, c.hooks.parseRecord(Lookup(c, s, req).record.value))
  {
  }

  /** Create, then show the id it answered: the same record comes back,
      with status 200 instead of 201. */
  lemma CreateThenShow(c: Config, s: Store, req: Request, req2: Request)
    requires WellFormed(s) && c.policy == PublicPolicy
    requires ResourceApp.Create(c, s, req).reply.status == 201
    requires req2.resourceId == Some(IntToString(s.nextId + 1))
    ensures Show(c, ResourceApp.Create(c, s, req).store, req2).reply
            == ResourceApp.Create(c, s, req).reply.(status := 200)
  {
    var r := ResourceApp.Create(c, s, req);
    var t := Table(s, c.table);
    var body := Strip(c.hooks.sanitize(DecideCreate(c.policy, req.session, req.body).body), {"id"});
    var stored := CreatedRecord(c, body, req.now, s.nextId + 1);
    assert Table(r.store, c.table) == t + [stored] && r.reply == Json(201, c.hooks.parseRecord(stored));
    WellFormedTable(s, c.table);
    ShowFresh(c, r.store, req2, t, s.nextId, stored);
  }

  /** A store whose table is an issued table plus one record carrying the
      next id: the public show of that id answers the new record. */
  lemma ShowFresh(c: Config, s: Store, req: Request, t: seq<Record>, n: nat, stored: Record)
    requires c.policy == PublicPolicy
    requires Table(s, c.table) == t + [stored] && IdsIssued(t, n)
    requires "id" in stored && stored["id"] == VNum(n + 1)
    requires req.resourceId == Some(IntToString(n + 1))
    ensures Show(c, s, req).reply == Json(200, c.hooks.parseRecord(stored))
  {
    PathParses(n + 1);
    FreshLookup(c, s, req, t, n, stored);
    PublicShowsFound(c, s, req);
  }

  /** The path segment a number prints as parses back to that number. */
  lemma PathParses(n: int)
    ensures ParseInt(IdValue(Some(IntToString(n)))) == VNum(n)
  {
    ParseIntOfIntToString(n);
  }

  /** The lookup of the next id finds the record just appended. */
  lemma FreshLookup(c: Config, s: Store, req: Request, t: seq<Record>, n: nat, stored: Record)
    requires Table(s, c.table) == t + [stored] && IdsIssued(t, n)
    requires "id" in stored && stored["id"] == VNum(n + 1)
    requires ParseInt(IdValue(req.resourceId)) == VNum(n + 1)
    ensures Lookup(c, s, req).record == Some(stored)
  {
    assert IdIs(stored, VNum(n + 1));
    FreshIdFoundLast(t, n, stored);
  }

  // ---------------------------------------------------------------------
  // PUT with a client id

  const Items: string := "items"

  function PlainConfig(): Config {
    Config(Items, PublicPolicy, Timestamps(Some(VBool(false)), "", ""), DefaultHooks())
  }

  /** Two records, ids 1 and 2. */
  function TwoItems(): Store {
    Store(map[Items := [map["id" := VNum(1)], map["id" := VNum(2)]]], 2)
  }

  /** `PUT /1` with the body `{"id": 2}`. */
  function PutIdTwo(): Request {
    Request(map["id" := VNum(2)], Some("1"), NoSessionAdapter, 0)
  }

  /** PUT as written, once the policy allows: the prepared body goes
      unchanged to the write stage. */
  lemma AsWrittenWrites(c: Config, s: Store, req: Request)
    requires Lookup(c, s, req).record.Some?
    requires Decide(c.policy, UpdateAction, req.session, Lookup(c, s, req).record.value).Allow?
    ensures ReplaceAsWritten(c, s, req)
            == Write(c, GetTable(s, c.table), req, PutBodyAsWritten(c, req.body, Lookup(c, s, req).record.value))
  {
  }

  /** The path `/1` looks up the record with id 1, the first of the two. */
  lemma PathOneFindsFirst()
    ensures ParseInt(IdValue(PutIdTwo().resourceId)) == VNum(1)
    ensures FirstIndex(Table(TwoItems(), Items), VNum(1)) == Some(0)
    ensures Lookup(PlainConfig(), TwoItems(), PutIdTwo()).record == Some(Table(TwoItems(), Items)[0])
  {
    PathOneParses();
    var t := Table(TwoItems(), Items);
    assert IdIs(t[0], VNum(1));
    assert FirstIndex(t, VNum(1)) == Some(0);
  }

  /** The path segment `1` parses to the number 1. */
  lemma PathOneParses()
    ensures ParseInt(IdValue(Some("1"))) == VNum(1)
  {
    PathParses(1);
    assert IntToString(1) == "1";
  }

  lemma TwoItemsWellFormed()
    ensures WellFormed(TwoItems())
  {
    assert Table(TwoItems(), Items)[0]["id"] == VNum(1);
  }

  /** Under the plain configuration the write stage merges the body, as
      given, onto the record the path's id finds. */
  lemma PlainWriteMerges(s: Store, req: Request, body: Record, i: nat)
    requires FirstIndex(Table(s, Items), ParseInt(IdValue(req.resourceId))) == Some(i)
    ensures Write(PlainConfig(), s, req, body).reply.status == 200
    ensures Table(Write(PlainConfig(), s, req, body).store, Items)
            == Table(s, Items)[i := Merge(Table(s, Items)[i], body)]
  {
  }

  /** As written, the PUT succeeds and leaves two records with id 2: the
      store's merge copies the client's `id` onto record 1. */
  lemma PutClientIdBreaksIds()
    ensures WellFormed(TwoItems())
    ensures ReplaceAsWritten(PlainConfig(), TwoItems(), PutIdTwo()).reply.status == 200
    ensures !WellFormed(ReplaceAsWritten(PlainConfig(), TwoItems(), PutIdTwo()).store)
  {
    TwoItemsWellFormed();
    PutIdTwoDuplicates();
    var s' := ReplaceAsWritten(PlainConfig(), TwoItems(), PutIdTwo()).store;
    DuplicateIdsIllFormed(s', Items);
  }

  /** The as-written PUT of `{"id": 2}` to `/1` answers 200 and leaves the
      first two rows with the same id. */
  lemma PutIdTwoDuplicates()
    ensures var r := ReplaceAsWritten(PlainConfig(), TwoItems(), PutIdTwo());
            r.reply.status == 200 && |Table(r.store, Items)| >= 2
            && Get(Table(r.store, Items)[0], "id") == Get(Table(r.store, Items)[1], "id")
  {
    PathOneFindsFirst();
    assert Get(Table(TwoItems(), Items)[1], "id") == Some(PutIdTwo().body["id"]);
    AsWrittenPutCopiesId(TwoItems(), PutIdTwo(), 0, 1);
  }

  /** Under the plain configuration, an as-written PUT whose body carries
      the id of another row gives the found row that id too. */
  lemma AsWrittenPutCopiesId(s: Store, req: Request, i: nat, j: nat)
    requires Items in s.tables
    requires FirstIndex(Table(s, Items), ParseInt(IdValue(req.resourceId))) == Some(i)
    requires j < |Table(s, Items)| && "id" in req.body && Get(Table(s, Items)[j], "id") == Some(req.body["id"])
    ensures var r := ReplaceAsWritten(PlainConfig(), s, req);
            r.reply.status == 200 && |Table(r.store, Items)| == |Table(s, Items)|
            && Get(Table(r.store, Items)[i], "id") == Some(req.body["id"])
            && (j != i ==> Table(r.store, Items)[j] == Table(s, Items)[j])
  {
    var c := PlainConfig();
    var t := Table(s, Items);
    assert Lookup(c, s, req).record == Some(t[i]);
    AsWrittenWrites(c, s, req);
    assert PutBodyAsWritten(c, req.body, t[i]) == req.body;
    assert GetTable(s, Items) == s;
    PlainWriteMerges(s, req, req.body, i);
  }

  /** Two rows sharing an id break the store invariant. */
  lemma DuplicateIdsIllFormed(s: Store, name: string)
    requires |Table(s, name)| >= 2 && Get(Table(s, name)[0], "id") == Get(Table(s, name)[1], "id")
    ensures !WellFormed(s)
  {
    if WellFormed(s) {
      WellFormedTable(s, name);
    }
  }

  /** The corrected PUT, given the same request, keeps the ids unique. */
  lemma PutClientIdKeepsIds()
    ensures WellFormed(ResourceApp.Replace(PlainConfig(), TwoItems(), PutIdTwo(), false).store)
  {
    TwoItemsWellFormed();
    ReplacePreservesIds(PlainConfig(), TwoItems(), PutIdTwo(), false);
  }

  // ---------------------------------------------------------------------
  // list rewrites the store

  /** A `parseRecord` that hides the password field. */
  function HidePassword(): Hooks {
    Hooks(r => r, r => None, r => Strip(r, {"password"}))
  }

  function OneUser(): Store {
    Store(map["users" := [map["id" := VNum(1), "password" := VStr("secret")]]], 1)
  }

  function ListRequest(): Request {
    Request(map[], None, NoSessionAdapter, 0)
  }

  /** As written, listing with a hiding `parseRecord` deletes the hidden
      field from the stored rows; the corrected list reads the same reply
      and leaves the rows as they were. */
  lemma ListRewritesStore()
    ensures var c := Config("users", PublicPolicy, Timestamps(Some(VBool(false)), "", ""), HidePassword());
            ListAsWritten(c, OneUser(), ListRequest()).reply == List(c, OneUser(), ListRequest()).reply
            && "password" in Table(OneUser(), "users")[0]
            && "password" !in Table(ListAsWritten(c, OneUser(), ListRequest()).store, "users")[0]
            && Table(List(c, OneUser(), ListRequest()).store, "users") == Table(OneUser(), "users")
  {
    var c := Config("users", PublicPolicy, Timestamps(Some(VBool(false)), "", ""), HidePassword());
    var r := ListAsWritten(c, OneUser(), ListRequest());
    assert Table(r.store, "users")[0] == Strip(Table(OneUser(), "users")[0], {"password"});
  }
}

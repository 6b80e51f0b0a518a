/** The reference session port. A token is `<primary value>|<secret>`; the
    port trusts any request whose authorization header carries the
    configured secret after the first `|`, looks the user up by the part
    before it, and exposes a projection of that user's record as the
    session. It reads the users table of the app it is attached to. */
module MockSession {
  import opened Wrappers
  import opened Values
  import opened MockDatabase
  import Errors

  /** The adapter's options (`secret`, `expose`) together with the two
      settings it reads from its app: the users table and the primary
      field. */
  datatype Config = Config(secret: Option<string>, expose: seq<string>, table: string, primary: string)

  /** What `load` or `create` leaves in `res.locals.session`, or the
      `TypeError` raised when the looked-up user does not exist and a field
      of `results[0]` is read while it is `undefined`. */
  datatype SessionState = NoSession | Session(data: Record) | Crashed

  // ---------------------------------------------------------------------
  // String.prototype.split

  /** `s.split(sep)` for a one-character separator: the pieces between
      separators, including empty ones; an empty string gives `[""]`. */
  function Split(s: string, sep: char): (parts: seq<string>)
    ensures |parts| >= 1
    ensures forall i :: 0 <= i < |parts| ==> sep !in parts[i]
    decreases |s|
  {
    if |s| == 0 then [""]
    else if s[0] == sep then [""] + Split(s[1..], sep)
    else
      var rest := Split(s[1..], sep);
      [[s[0]] + rest[0]] + rest[1..]
  }

  /** Joining the pieces with the separator, the inverse of `Split`. */
  function Join(parts: seq<string>, sep: char): string
    requires |parts| >= 1
    decreases |parts|
  {
    if |parts| == 1 then parts[0] else parts[0] + [sep] + Join(parts[1..], sep)
  }

  lemma {:induction false} SplitJoin(s: string, sep: char)
    ensures Join(Split(s, sep), sep) == s
    decreases |s|
  {
    if |s| > 0 {
      SplitJoin(s[1..], sep);
      var rest := Split(s[1..], sep);
      if s[0] == sep {
        assert Split(s, sep)[1..] == rest;
        assert s == [sep] + s[1..];
      } else {
        var parts := Split(s, sep);
        assert parts[0] == [s[0]] + rest[0];
        assert parts[1..] == rest[1..];
        if |rest| == 1 {
          assert s == [s[0]] + s[1..];
        } else {
          assert Join(rest, sep) == rest[0] + [sep] + Join(rest[1..], sep);
          assert s == [s[0]] + s[1..];
        }
      }
    }
  }

  /** Splitting a text with one separator between two separator-free
      parts gives back exactly those parts. */
  lemma {:induction false} SplitTwo(u: string, v: string, sep: char)
    requires sep !in u && sep !in v
    ensures Split(u + [sep] + v, sep) == [u, v]
    decreases |u|
  {
    if |u| == 0 {
      assert u + [sep] + v == [sep] + v;
      assert ([sep] + v)[1..] == v;
      SplitNone(v, sep);
    } else {
      assert (u + [sep] + v)[1..] == u[1..] + [sep] + v;
      assert (u + [sep] + v)[0] == u[0];
      SplitTwo(u[1..], v, sep);
      assert [u[0]] + u[1..] == u;
    }
  }

  lemma {:induction false} SplitNone(v: string, sep: char)
    requires sep !in v
    ensures Split(v, sep) == [v]
    decreases |v|
  {
    if |v| > 0 {
      assert sep !in v[1..];
      SplitNone(v[1..], sep);
      assert [v[0]] + v[1..] == v;
    }
  }

  // ---------------------------------------------------------------------
  // tokens and sessions

  /** `${secret}`: an unset secret prints as `undefined`. */
  function SecretText(secret: Option<string>): string {
    match secret
    case Some(t) => t
    case None => "undefined"
  }

  /** The `x-token` header `create` sets for a user's primary value. */
  function Token(c: Config, username: Option<Value>): string {
    ToText(username) + "|" + SecretText(c.secret)
  }

  /** The session object: each exposed field copied from the record; a
      field the record lacks stays absent. */
  function Project(r: Record, expose: seq<string>): (p: Record)
    ensures p.Keys == r.Keys * (set f | f in expose)
    ensures forall f :: f in p ==> p[f] == r[f]
  {
    map f | f in r.Keys && f in expose :: r[f]
  }

  /** The session built from the lookup's results: each exposed field of
      the first record copied. With no record, the first exposed field's
      read raises; an empty `expose` reads nothing and leaves `{}`. */
  function FirstSession(results: seq<Record>, expose: seq<string>): SessionState {
    if |results| > 0 then Session(Project(results[0], expose))
    else if |expose| == 0 then Session(map[])
    else Crashed
  }

  /** The lookup both operations run: equality on the primary field. */
  function UserCondition(c: Config, username: Option<Value>): Condition {
    Condition(c.primary, "=", username)
  }

  /** The first piece of the authorization header (a missing header reads
      as the empty string): the user part of the token. */
  function TokenUser(authorization: Option<string>): string {
    Split(authorization.GetOr(""), '|')[0]
  }

  /** The second piece, `undefined` when there is none: the secret part. */
  function TokenSecret(authorization: Option<string>): Option<string> {
    var parts := Split(authorization.GetOr(""), '|');
    if |parts| > 1 then Some(parts[1]) else None
  }

  datatype Loaded = Loaded(store: Store, state: SessionState)

  /** `load`: a secret part other than the secret leaves no session and no
      error; otherwise the user part is looked up, and the session is the
      projection of the first stored record whose primary field equals it.
      With no such record `load` raises, unless `expose` is empty. */
  function Load(c: Config, s: Store, authorization: Option<string>): (l: Loaded)
    ensures TokenSecret(authorization) != c.secret <==> l.state.NoSession?
    ensures l.state.NoSession? ==> l.store == s
    ensures !l.state.NoSession? ==> l.store == GetTable(s, c.table)
    ensures var t := Table(s, c.table);
            var first := FirstWhere(t, UserCondition(c, Some(VStr(TokenUser(authorization)))));
            && (l.state.Crashed? <==> TokenSecret(authorization) == c.secret && first.None? && |c.expose| > 0)
            && (l.state.Session? && first.Some? ==> l.state.data == Project(t[first.value], c.expose))
            && (l.state.Session? && first.None? ==> l.state.data == map[])
  {
    if TokenSecret(authorization) != c.secret then Loaded(s, NoSession)
    else
      var cond := UserCondition(c, Some(VStr(TokenUser(authorization))));
      var q := Query(s, c.table, [cond]);
      SingleConditionFirst(Table(s, c.table), cond);
      Loaded(q.store, FirstSession(q.results, c.expose))
  }

  datatype Created = Created(store: Store, token: string, state: SessionState)

  /** `create(userRecord)`: set the token header and establish the
      projection of the first stored record sharing the user's primary
      value; with no such record it raises, unless `expose` is empty. */
  function Create(c: Config, s: Store, user: Record): (r: Created)
    ensures r.token == Token(c, Get(user, c.primary))
    ensures r.store == GetTable(s, c.table)
    ensures var t := Table(s, c.table);
            var first := FirstWhere(t, UserCondition(c, Get(user, c.primary)));
            && (r.state.Crashed? <==> first.None? && |c.expose| > 0)
            && (first.Some? ==> r.state == Session(Project(t[first.value], c.expose)))
            && (first.None? && |c.expose| == 0 ==> r.state == Session(map[]))
  {
    var username := Get(user, c.primary);
    var q := Query(s, c.table, [UserCondition(c, username)]);
    SingleConditionFirst(Table(s, c.table), UserCondition(c, username));
    Created(q.store, Token(c, username), FirstSession(q.results, c.expose))
  }

  /** `load` as shipped: the constructor sets the adapter's `app` to
      `null` and nothing attaches it, so a request carrying the secret
      raises at `this.app.database` before any lookup. Only a wrong
      secret gets through, exactly as it does for an attached adapter. */
  function LoadDetached(c: Config, s: Store, authorization: Option<string>): (l: Loaded)
    ensures l.store == s
    ensures l.state.NoSession? <==> Load(c, s, authorization).state.NoSession?
    ensures !l.state.NoSession? ==> l.state.Crashed?
  {
    if TokenSecret(authorization) != c.secret then Loaded(s, NoSession) else Loaded(s, Crashed)
  }

  /** `destroy`: nothing to invalidate; it reports success. */
  function Destroy(): Option<Errors.Error> {
    None
  }

  /** A stored user is always found by its own primary value, so `create`
      for a record of the table yields a session. */
  lemma CreateForStoredUser(c: Config, s: Store, user: Record)
    requires user in Table(s, c.table)
    requires c.primary != "id"
    requires var u := Get(user, c.primary); u.Some? ==> !u.value.VNaN? && !u.value.VDate?
    ensures Create(c, s, user).state.Session?
  {
  }

  /** Token round trip: for a user whose primary value is a string without
      `|` and a secret without `|`, loading with the token `create` issued
      resolves the same session `create` established. */
  lemma TokenRoundTrip(c: Config, s: Store, user: Record, name: string)
    requires Get(user, c.primary) == Some(VStr(name))
    requires '|' !in name
    requires c.secret.Some? && '|' !in c.secret.value
    ensures Load(c, Create(c, s, user).store, Some(Create(c, s, user).token)).state == Create(c, s, user).state
  {
    var cr := Create(c, s, user);
    assert cr.token == name + ['|'] + c.secret.value;
    SplitTwo(name, c.secret.value, '|');
    assert TokenUser(Some(cr.token)) == name && TokenSecret(Some(cr.token)) == c.secret;
    assert Table(cr.store, c.table) == Table(s, c.table);
  }
}

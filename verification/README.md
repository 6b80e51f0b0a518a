# gfa-core in Dafny

A Dafny model of the request-handling core of gfa-core, a small JavaScript
framework for serverless REST endpoints. The model covers:

- the resource CRUD pipeline (`ResourceApp` on top of `BaseApp`), run against
  the framework's in-memory database adapter;
- the policy family;
- the session handshake, and the sessions app in its current form
  (`apps/SessionsApp.js`) and its legacy form (`src/App.js`);
- the reference password and session adapters;
- the two routers, the per-request `Payload` and the error classes.

In the source every handler is a chain of callbacks. Each chain runs strictly
in sequence and stops at the first error. Here each chain is one pure
function. It maps the store and the request to a new store and a reply
(`Reply`), or to an exception (`Outcome.Threw`) where the JavaScript would
raise. There are two exceptions to that, both modelled the way the
repository's own tests expect, with the shipped behaviour stated beside
them (see "## Findings"):

- The resource app never binds its stages, so as shipped every resource
  request that reaches a stage raises. The pipeline is modelled with its
  stages bound; `Routers.ServeResourceAsWritten` gives the shipped
  behaviour.
- The reference session adapter is never attached to an app: its `app`
  stays `null`. So as shipped its `create` raises, and so does its `load`
  of any token carrying the secret. The adapter is modelled as attached to
  the sessions app; `SessionsApp.SignInAsWritten` and
  `SessionsApp.AuthorizeAsWritten` give the shipped behaviour.

Records are `map<string, Value>` over a small JavaScript value type. An
absent key is `undefined`. `Values` states the language rules the code
leans on:

- truthiness;
- strict equality, where `NaN` and `Date` objects are never equal;
- `String(x)`;
- `parseInt(x, 10)`.

Files, one module each:

| file | module | models |
|---|---|---|
| wrappers.dfy | Wrappers | Option / Result |
| values.dfy | Values | JavaScript values, `===`, truthiness, `String`, `parseInt`, `Object.assign` |
| errors.dfy | Errors | the four error classes and plain `Error` |
| http.dfy | Http | replies, bodies, headers |
| base_app.dfy | BaseApp | apps/BaseApp.js |
| mock_database.dfy | MockDatabase | test/mocks/MockDatabaseAdapter.js |
| policies.dfy | Policies | policies/*.js |
| resource_app.dfy | ResourceApp | apps/ResourceApp.js |
| resource_props.dfy | ResourceProperties | multi-request properties of the pipeline |
| mock_password.dfy | MockPassword | test/mocks/MockPasswordAdapter.js |
| session_adapter.dfy | SessionAdapter | adapters/SessionAdapter.js |
| mock_session.dfy | MockSession | test/mocks/MockSessionAdapter.js |
| sessions_app.dfy | SessionsApp | apps/SessionsApp.js |
| legacy_app.dfy | LegacyApp | src/App.js |
| routers.dfy | Routers | routers/*.js, and each app's `handle` |
| payloads.dfy | Payloads | lib/Payload.js |

The code behaves as follows:

- The public policy allows every action. It has no disabled-action list;
  only `OwnerPolicy` masks disabled actions as NotFound.
- `BaseApp.error` has no 403, 409 or 400 case. Forbidden, Conflict and
  validation errors all surface as the opaque 500, unless their message is
  `UNAUTHORIZED` or `NOT_FOUND`.
- No conflict check exists. Listing is never scoped to the owner.
- Create asks the policy before it sanitizes the body and strips the id.

Where the code is evidently wrong (see "## Findings"), the model defines
both the stage as written and the corrected stage. The rest of the model,
the routers included, uses the corrected ones: the resource stages run
bound, PUT writes `PutBody`, the id-less GET is `List`, and the reference
session adapter reads the sessions app's database, table and fields.

## Model

| member | source | states |
|---|---|---|
| Errors.Make | errors/NotFoundError.js:3-11 | an error class keeps a non-empty message and otherwise uses its own code; its status is the class's fixed 401/403/404/409 |
| Errors.MakeIsStable | errors/UnauthorizedError.js:4-10 | re-creating an error from its own message gives back the same error |
| Errors.MakeDistinguishesKinds | errors/ConflictError.js:4-10 | errors of different classes are never equal, whatever their messages |
| Values.Merge | test/mocks/MockDatabaseAdapter.js:54 | `Object.assign`: every source field wins, every other target field survives, keys are the union |
| Values.StrictEqualsIsEqualityOnPrimitives | test/mocks/MockDatabaseAdapter.js:30 | away from `NaN` and `Date` objects, `===` is value equality |
| Values.ParseInt | test/mocks/MockDatabaseAdapter.js:26-27 | `parseInt(x, 10)` always yields an integer or `NaN`, never a string or other value |
| Values.ParseIntIsTextual | test/mocks/MockDatabaseAdapter.js:26-27 | the value-by-value `parseInt` agrees with parsing `String(x)` for every value: strings as they are, numbers through their text, everything else `NaN` |
| Values.ParseIntOfIntToString | test/mocks/MockDatabaseAdapter.js:49 | `parseInt(String(n), 10) === n` for every integer, so an id survives a trip through the URL path |
| Values.ParseIntIdempotent | test/mocks/MockDatabaseAdapter.js:26-27 | coercing an already coerced id condition again changes nothing |
| BaseApp.New | apps/BaseApp.js:14-25 | missing options or router throw their codes; headers default to `[]`; a falsy `cors` becomes `false` |
| BaseApp.SetHeaders | apps/BaseApp.js:67-81 | the four CORS headers iff cors is `true` or `'dev'`; origin and `Vary` only for `'dev'`; the custom headers always come last, in order |
| BaseApp.ErrorReply | apps/BaseApp.js:50-59 | 401 iff message UNAUTHORIZED or status 401; else 404 iff message NOT_FOUND or status 404; everything else the opaque 500 |
| BaseApp.Empty | apps/BaseApp.js:41-46 | 204 without an error, otherwise the error's translation (never 204) |
| BaseApp.OptionsReply | apps/BaseApp.js:37-39 | OPTIONS answers a bare 204 |
| BaseApp.Final | apps/BaseApp.js:61-65 | a bare 404 exactly when nothing was sent yet |
| BaseApp.UnauthorizedAnswers401 | apps/BaseApp.js:51-53 | every UnauthorizedError, whatever its message, is a bare 401 |
| BaseApp.NotFoundAnswers404 | apps/BaseApp.js:54-56 | a NotFoundError is a bare 404 unless its message is the UNAUTHORIZED code |
| BaseApp.ForbiddenAndConflictAnswer500 | apps/BaseApp.js:57-58 | Forbidden and Conflict errors surface as the opaque 500 |
| MockDatabase.GetTable | test/mocks/MockDatabaseAdapter.js:79-86 | registers an empty table on first use and changes no row of any table |
| MockDatabase.GetTablePreservesWellFormed | test/mocks/MockDatabaseAdapter.js:79-86 | registering a table keeps the store's ids issued and distinct |
| MockDatabase.Query | test/mocks/MockDatabaseAdapter.js:15-22 | no conditions returns the whole live table; the store changes only by registration |
| MockDatabase.QuerySoundAndComplete | test/mocks/MockDatabaseAdapter.js:23-36 | with conditions, a record is a result iff it is in the table and meets some condition (OR, not AND) |
| MockDatabase.MatchCopiesCount | test/mocks/MockDatabaseAdapter.js:24-35 | a record meeting n conditions is pushed n times |
| MockDatabase.QueryLoop | test/mocks/MockDatabaseAdapter.js:24-36 | the nested record/condition loops compute exactly the reference result list |
| MockDatabase.HoldsIdCondition | test/mocks/MockDatabaseAdapter.js:26-30 | an `id` condition holds iff the record's id strictly equals the parsed value |
| MockDatabase.FirstIndex | test/mocks/MockDatabaseAdapter.js:52-57 | the first position whose id strictly equals the key, or none iff no record has it |
| MockDatabase.QueryByIdFindsFirst | test/mocks/MockDatabaseAdapter.js:15-36 | a query by id finds something iff some record has the coerced id, and its first result is the first such record |
| MockDatabase.FirstWhere | test/mocks/MockDatabaseAdapter.js:24-35 | the first position whose record meets the condition, or none iff no record meets it |
| MockDatabase.SingleConditionFirst | test/mocks/MockDatabaseAdapter.js:15-36 | a one-condition query finds something iff some record meets the condition, and its first result is the first such record |
| MockDatabase.Insert | test/mocks/MockDatabaseAdapter.js:39-46 | appends a copy whose id is the next counter value, overriding any caller id; other tables untouched |
| MockDatabase.ReplaceKey | test/mocks/MockDatabaseAdapter.js:48-60 | merges the data into the first record with that id; otherwise NotFound `table#id not found` and no row changes |
| MockDatabase.DeleteKey | test/mocks/MockDatabaseAdapter.js:62-77 | removes exactly the first record with that id, keeping the order of the rest; otherwise NotFound |
| MockDatabase.InsertPreservesWellFormed | test/mocks/MockDatabaseAdapter.js:39-46 | insert keeps ids issued by the counter and distinct |
| MockDatabase.ReplacePreservesWellFormed | test/mocks/MockDatabaseAdapter.js:48-57 | a replace whose data has no `id` keeps ids distinct |
| MockDatabase.DeletePreservesWellFormed | test/mocks/MockDatabaseAdapter.js:62-77 | delete keeps ids issued and distinct |
| MockDatabase.DeleteTwiceNotFound | test/mocks/MockDatabaseAdapter.js:69-76 | in a well-formed store a second delete of the same id reports NotFound |
| MockPassword.Generate | test/mocks/MockPasswordAdapter.js:10-12 | the hash is the stringified plaintext followed by `mocked` |
| MockPassword.ValidateMeansGenerated | test/mocks/MockPasswordAdapter.js:6-8 | validate accepts exactly the string that generate produces for that plaintext |
| MockPassword.GenerateThenValidate | test/mocks/MockPasswordAdapter.js:6-12 | round trip: `validate(generate(p), p)` |
| MockPassword.ValidateRejectsOthers | test/mocks/MockPasswordAdapter.js:7 | a hash validates another plaintext iff the two print alike |
| MockPassword.DifferentPasswordRejected | test/mocks/MockPasswordAdapter.js:6-8 | two different password strings: the hash of one rejects the other |
| MockSession.Split | test/mocks/MockSessionAdapter.js:15 | `split('|')` gives at least one piece and no piece contains the separator |
| MockSession.SplitJoin | test/mocks/MockSessionAdapter.js:15 | joining the pieces with the separator gives the header back |
| MockSession.SplitTwo | test/mocks/MockSessionAdapter.js:15 | `user|secret` splits into exactly those two parts when neither holds `|` |
| MockSession.Project | test/mocks/MockSessionAdapter.js:21-26 | the session copies exactly the exposed fields the record has |
| MockSession.Load | test/mocks/MockSessionAdapter.js:14-29 | no session and no error iff the second piece differs from the secret; otherwise the projection of the first stored record whose primary field equals the first piece; with no such record it raises iff some field is exposed, and leaves `{}` otherwise |
| MockSession.Create | test/mocks/MockSessionAdapter.js:31-45 | sets the `user|secret` token; establishes the projection of the first stored record sharing the user's primary value; with none it raises iff some field is exposed, and establishes `{}` otherwise |
| MockSession.CreateForStoredUser | test/mocks/MockSessionAdapter.js:32-43 | create for a stored user always finds a session |
| MockSession.TokenRoundTrip | test/mocks/MockSessionAdapter.js:14-45 | load with the token create issued resolves the session create established |
| MockSession.LoadDetached | test/mocks/MockSessionAdapter.js:11-19 | the shipped `load` with `app` null: a wrong secret leaves no session exactly as the attached `load` does; a matching secret always raises, and the store is untouched |
| SessionAdapter.AuthorizeLoaded | adapters/SessionAdapter.js:25-40 | the slot is cleared; a missing callback is a 500; a load error passes through; absent data or a falsy id is UNAUTHORIZED; otherwise the data |
| SessionAdapter.AuthorizeDeliversOnce | adapters/SessionAdapter.js:19-31 | through `authorize` the callback is always called, and a stray second call finds the slot cleared |
| SessionAdapter.AuthorizedDataHasId | adapters/SessionAdapter.js:32-39 | delivered data has a truthy id; every failure is the load error or UNAUTHORIZED |
| SessionAdapter.ZeroIdIsUnauthorized | adapters/SessionAdapter.js:36-38 | a session with id 0 is refused |
| SessionAdapter.BaseAuthorizeFails | adapters/SessionAdapter.js:46-48 | with the base `load` every authorization fails with SESSION_ADAPTER_NOT_IMPLEMENTED |
| Policies.Forbidden | policies/BasePolicy.js:31-33 | a 403 ForbiddenError carrying the given message |
| Policies.Unauthorized | policies/BasePolicy.js:35-37 | a 401 UnauthorizedError with the default message |
| Policies.Session | policies/SessionPolicy.js:8-23 | no handler gives SESSION_POLICY_APP_SESSION_MISSING; a load error is forwarded; otherwise the data, possibly absent |
| Policies.Decide | policies/OwnerPolicy.js:32-118 | base denies; public and session allow; owner: disabled is NotFound, then the lookup error, Unauthorized without an actor, list allowed, others iff admin or owner; user update needs data and admin-or-self |
| Policies.DecideCreate | policies/OwnerPolicy.js:12-30 | owner create stamps the actor's id into the association field and allows iff enabled with an actor; other policies leave the body alone |
| Policies.BaseDeniesUniformly | policies/BasePolicy.js:11-29 | the base policy's 403 does not depend on action, record or session |
| Policies.OwnerAdminWins | policies/OwnerPolicy.js:46-50 | an admin is allowed on every enabled action, whoever owns the record |
| Policies.OwnerOwnRecord | policies/OwnerPolicy.js:88-92 | the actor whose id equals the association field is allowed |
| Policies.OwnerCreatedIsOwned | policies/OwnerPolicy.js:26-28 | a record created under the owner policy can then be updated, shown and deleted by its creator |
| Policies.OwnerStrangerForbidden | policies/OwnerPolicy.js:111-116 | a non-admin stranger gets a 403 whose message is the text "null" |
| Policies.OwnerNeedsActor | policies/OwnerPolicy.js:22-25 | every enabled owner action without an actor is Unauthorized |
| Policies.UserUpdateAdminOrSelf | policies/UserPolicy.js:13-18 | user update allowed iff admin or the record itself |
| Policies.UserUpdateAsWrittenRaises | policies/UserPolicy.js:7-12 | as written, update raises before deciding, even for an admin whom the intended rule allows |
| ResourceApp.NormalizeTimestamps | apps/ResourceApp.js:22-25 | no option means disabled; naming `created` or `updated` forces enabled |
| ResourceApp.New | apps/ResourceApp.js:10-27 | base checks, then DATABASE_ADAPTER and TABLE required; policy defaults to public |
| ResourceApp.Timestamp | apps/ResourceApp.js:55-69 | disabled leaves the record as is; `created` set only when falsy; `updated` always; no other field changes |
| ResourceApp.Lookup | apps/ResourceApp.js:194-203 | finds a record iff one has the coerced path id, and then the first one |
| ResourceApp.Create | apps/ResourceApp.js:72-102 | a denial forwards the policy's error and leaves the store; 201 iff allowed and the sanitized, id-less body validates; then exactly the stamped record with the next id is appended and answered, through `parseRecord`, with 201 |
| ResourceApp.PutBodyAsWritten | apps/ResourceApp.js:134-139 | as written, PUT writes the client body as given, `id` included, with only the stored `created` value copied over |
| ResourceApp.PutBody | apps/ResourceApp.js:129-139 | the corrected PUT body of the third Findings row: as written at lines 134-139 but without `id`, as PATCH strips it at line 132 |
| ResourceApp.PatchBody | apps/ResourceApp.js:129-133 | PATCH writes the body merged onto the stored record, without `id` |
| ResourceApp.Write | apps/ResourceApp.js:140-160 | 200 iff the sanitized body validates and the path id is found; then the first such row gets the stamped body merged in, and nothing else changes |
| ResourceApp.Replace | apps/ResourceApp.js:105-166 | PUT and PATCH, with the corrected PUT body: absent is 404 without asking the policy; denial forwards its error; a failure leaves the rows; 200 only when found and allowed |
| ResourceApp.ReplaceAsWritten | apps/ResourceApp.js:123-160 | a failed PUT as written leaves the rows |
| ResourceApp.List | apps/ResourceApp.js:169-187 | the corrected list of the fourth Findings row: denial forwards its error; allowed is 200 with every row parsed; rows unchanged |
| ResourceApp.ListAsWritten | apps/ResourceApp.js:46-52 | as written, listing answers the same reply as the corrected list |
| ResourceApp.Show | apps/ResourceApp.js:190-214 | absent is 404; 200 iff found and allowed, with the parsed stored record; nothing written |
| ResourceApp.Delete | apps/ResourceApp.js:217-241 | absent is 404; a failure leaves the rows; 204 only after the store deleted the stored record's id |
| ResourceApp.StripSlashes | apps/ResourceApp.js:246-248 | a suffix of the path, only `/` removed, not starting with `/` |
| ResourceApp.SetResourceId | apps/ResourceApp.js:243-251 | a non-empty URL becomes the stripped id, possibly `""`; otherwise the id is left as it was |
| ResourceApp.StripSlashesLoop | apps/ResourceApp.js:246-248 | the slash-stripping loop computes exactly the stripped path |
| ResourceProperties.TimestampActsIffNamed | apps/ResourceApp.js:22-25 | timestamps are the identity iff no `created`/`updated` field is named |
| ResourceProperties.TimestampSameInstant | apps/ResourceApp.js:59-67 | a first stamp puts the same instant in both fields |
| ResourceProperties.LookupIsFirstIndex | apps/ResourceApp.js:106-119 | the record the lookup finds is the one the store's replace and delete act on |
| ResourceProperties.ReplaceAllowed | apps/ResourceApp.js:123-142 | a successful PUT/PATCH wrote the prepared body of the found record |
| ResourceProperties.ReplaceWrites | apps/ResourceApp.js:144-160 | after a successful PUT/PATCH the found row has the stamped body merged in and the reply carries the path id |
| ResourceProperties.PatchKeepsUntouched | apps/ResourceApp.js:129-133 | PATCH keeps every field the body omits, in the store and in the reply |
| ResourceProperties.PatchWritesGiven | apps/ResourceApp.js:129-133 | PATCH writes every field the body carries |
| ResourceProperties.PutKeepsCreated | apps/ResourceApp.js:134-139 | PUT keeps the stored `created` value whatever the client sent |
| ResourceProperties.PutReplyVersusStore | apps/ResourceApp.js:150-159 | a field a PUT body omits is missing from the reply but survives in the store |
| ResourceProperties.CreatePreservesIds | apps/ResourceApp.js:86-102 | create keeps the store's ids issued and distinct |
| ResourceProperties.ReplacePreservesIds | apps/ResourceApp.js:144-151 | the corrected PUT and PATCH keep ids distinct |
| ResourceProperties.DeletePreservesIds | apps/ResourceApp.js:235-241 | delete keeps ids issued and distinct |
| ResourceProperties.ReadsPreserveIds | apps/ResourceApp.js:169-214 | list and show keep the store well formed |
| ResourceProperties.FoundIdIsKey | apps/ResourceApp.js:240 | the found record's own id coerces to the path key, so delete-by-stored-id hits the same record |
| ResourceProperties.DeleteRemovesKey | apps/ResourceApp.js:221-241 | a successful DELETE removes the record the path key finds |
| ResourceProperties.AbsentDeleteIs404 | apps/ResourceApp.js:226-229 | a DELETE whose lookup finds nothing is a bare 404 |
| ResourceProperties.DeleteTwice404 | apps/ResourceApp.js:217-241 | deleting the same path twice: the second answers 404 |
| ResourceProperties.FreshIdAbsent | test/mocks/MockDatabaseAdapter.js:41 | no row of a well-formed table carries an id beyond the counter |
| ResourceProperties.FreshIdFoundLast | test/mocks/MockDatabaseAdapter.js:41-44 | the appended record is the first and only match for the new id |
| ResourceProperties.PublicShowsFound | policies/PublicPolicy.js:18-20 | under the public policy a found record is shown |
| ResourceProperties.CreateThenShow | apps/ResourceApp.js:95-101 | showing the id a create answered returns the same record with 200 |
| ResourceProperties.AsWrittenWrites | apps/ResourceApp.js:123-142 | the as-written PUT hands the client body, `id` included, to the write stage |
| ResourceProperties.PathOneFindsFirst | test/mocks/MockDatabaseAdapter.js:26-30 | the path `/1` finds the record with id 1 |
| ResourceProperties.PlainWriteMerges | test/mocks/MockDatabaseAdapter.js:48-57 | with plain hooks the write merges the body, as given, into the found row |
| ResourceProperties.AsWrittenPutCopiesId | apps/ResourceApp.js:134-139 | an as-written PUT whose body carries another row's id answers 200 and gives the found row that id, leaving the other row as it was |
| ResourceProperties.PutClientIdBreaksIds | apps/ResourceApp.js:134-139 | as written, `PUT /1 {"id": 2}` succeeds and leaves two rows with id 2 |
| ResourceProperties.PutClientIdKeepsIds | apps/ResourceApp.js:129-139 | the corrected PUT on the same request keeps ids unique |
| ResourceProperties.ListRewritesStore | apps/ResourceApp.js:46-52 | as written, a hiding `parseRecord` deletes the field from the stored rows; the corrected list leaves them |
| SessionsApp.FieldNames | apps/SessionsApp.js:166-171 | each field name keeps a non-empty option, else `username` / `password` |
| SessionsApp.New | apps/SessionsApp.js:8-27 | options, session and router required in that order; table defaults to `users` |
| SessionsApp.ErrorReply | apps/SessionsApp.js:145-151 | 401 iff the message is UNAUTHORIZED, else the opaque 500 |
| SessionsApp.OptionsReply | apps/SessionsApp.js:132-141 | OPTIONS answers 204, no headers of its own, no body |
| SessionsApp.SessionResult | apps/SessionsApp.js:88-93 | 201 with the session data and the token header, the translated error, or the exception |
| SessionsApp.SignInChain | apps/SessionsApp.js:53-93 | query error translated; no match 401; password error translated; mismatch 401; only a valid password reaches `create` |
| SessionsApp.Gate | apps/SessionsApp.js:100-124 | missing callback 500; authorization error translated; otherwise the verb's continuation |
| SessionsApp.DestroyResult | apps/SessionsApp.js:107-112 | 204 after a successful destroy, else the translated error |
| SessionsApp.CheckUser | apps/SessionsApp.js:63-69 | the base port reports not-implemented; the reference port answers validate |
| SessionsApp.CreateSession | apps/SessionsApp.js:79-85 | the base port reports not-implemented; with the reference session port it raises iff the database is not the reference one or no stored user shares the primary value while some field is exposed; otherwise the token header and the first such user's projection (`{}` when there is none) |
| SessionsApp.CreateSessionAsWritten | test/mocks/MockSessionAdapter.js:31-32 | the shipped `create` with `app` null: it agrees with `CreateSession` exactly when that establishes no session, and otherwise raises |
| SessionsApp.SignInAsWritten | apps/SessionsApp.js:79-92 | the shipped POST keeps the store and every reply of `SignIn`, except that each 201 becomes a raise, and nothing else differs |
| SessionsApp.SignIn | apps/SessionsApp.js:38-51 | missing ports 500; the base database's not-implemented error translated; with the reference database the store changes only by registering the app's table |
| SessionsApp.AuthorizeAsWritten | test/mocks/MockSessionAdapter.js:14-19 | the shipped `authorize` raises iff the reference adapter sees its secret, whatever the database and `expose`; whenever it delivers a verdict, it is the attached adapter's |
| SessionsApp.Authorize | apps/SessionsApp.js:114-117 | the base adapter fails every load; with the reference adapter `load` raises iff the secret matches and the database is not the reference one or no user matches while some field is exposed; a delivered session has a truthy id and is the projection of the first stored user whose primary field equals the token's user part |
| SessionsApp.Info | apps/SessionsApp.js:119-124 | 200 only with the reference session port and a session with a truthy id |
| SessionsApp.Head | apps/SessionsApp.js:126-129 | 204 only with the reference session port |
| SessionsApp.Destroy | apps/SessionsApp.js:104 | destroy succeeds iff the session port is the reference one |
| SessionsApp.SignOut | apps/SessionsApp.js:96-112 | 204 only with the reference session port |
| SessionsApp.StatusIgnored | apps/SessionsApp.js:145-151 | an error's status is ignored, unlike in the resource apps |
| SessionsApp.SignInNeedsPorts | apps/SessionsApp.js:39-41 | without both ports sign-in is the opaque 500 and touches nothing |
| SessionsApp.SignInUnknownUser | apps/SessionsApp.js:57-59 | no stored user with that primary value: 401 before any password check |
| SessionsApp.FirstMatchIsStored | apps/SessionsApp.js:42-60 | the matched user is a stored user with the body's primary value |
| SessionsApp.SignInWrongPassword | apps/SessionsApp.js:76-78 | a password that does not validate against the stored hash: 401 |
| SessionsApp.SameConditionSameMatch | test/mocks/MockSessionAdapter.js:32-34 | the lookup `create` runs selects the same users as the sign-in lookup |
| SessionsApp.CreateFindsMatchedUser | test/mocks/MockSessionAdapter.js:31-43 | `create` establishes the matched user's own projection |
| SessionsApp.SignInSucceeds | apps/SessionsApp.js:79-93 | a valid sign-in answers 201 with the user's token and projection |
| SessionsApp.SignInThenInfo | apps/SessionsApp.js:114-124 | GET with the token a sign-in issued returns the same session with 200, or 401 if it has no truthy id |
| SessionsApp.EmptyExposeUnauthorized | test/mocks/MockSessionAdapter.js:19-28 | with nothing exposed `load` never raises and leaves `{}`, so every GET is refused with 401 |
| SessionsApp.AuthorizeAsWrittenAgrees | test/mocks/MockSessionAdapter.js:11-19 | the shipped and the attached `authorize` are equal iff the request does not carry the secret or the attached `load` would raise too |
| SessionsApp.ShippedGatedVerbsRaise | apps/SessionsApp.js:96-129 | as shipped GET, HEAD and DELETE raise on every request carrying the secret |
| SessionsApp.ShippedSignInRaises | apps/SessionsApp.js:79-92 | the sign-in that `SignInSucceeds` answers with 201 raises as shipped |
| SessionsApp.BaseSessionRefusesAll | adapters/SessionAdapter.js:46-48 | with the base session adapter GET, HEAD and DELETE are all the opaque 500 |
| SessionsApp.MissingTokenUnauthorized | test/mocks/MockSessionAdapter.js:15-18 | no authorization header: every gated verb is 401 |
| SessionsApp.GatedVerbsAgree | apps/SessionsApp.js:96-129 | GET is 200 iff HEAD is 204; with the reference adapter DELETE answers as HEAD |
| SessionsApp.SameConditionFirst | test/mocks/MockDatabaseAdapter.js:24-35 | two conditions met by the same records select the same rows |
| LegacyApp.New | src/App.js:8-27 | AUTHORIZER_* errors in order; table defaults to `User` |
| LegacyApp.ErrorReply | src/App.js:143-146 | every error, UNAUTHORIZED included, is the opaque 500 |
| LegacyApp.Unshift | src/adapters/PasswordAdapter.js:4-6 | the base adapter's shifted answer, read as intended, is PASSWORD_ADAPTER_NOT_IMPLEMENTED |
| LegacyApp.SignIn | src/App.js:38-93 | missing ports 500; every failure other than 401 is the opaque 500 |
| LegacyApp.SignOut | src/App.js:96-112 | 204 iff authorized and destroy succeeded |
| LegacyApp.UnauthorizedIs500 | src/App.js:143-146 | an unauthorized GET is a 500 here but a 401 in the current app |
| LegacyApp.SignOutAsWrittenRaises | src/App.js:107-112 | as written, a successful sign-out raises; intended, it answers 204 |
| LegacyApp.SignOutAgreesOtherwise | src/App.js:100-112 | everywhere else the written and intended sign-out agree |
| LegacyApp.StubPasswordRaises | src/App.js:72-75 | as written, reaching the base password adapter raises; intended, it is a 500 |
| LegacyApp.SignInAgreesOtherwise | src/App.js:53-93 | with a port answering in the expected order, written and intended sign-in agree |
| Routers.BuildResourceRouter | routers/ResourceRouter.js:6-15 | the six methods are mapped, other entries kept, and the app attached |
| Routers.ResourceDispatch | routers/BaseRouter.js:10-17 | a mapped method runs its handler; otherwise `app.final`, which raises without an app |
| Routers.StageOf | routers/ResourceRouter.js:17-51 | PUT, PATCH and DELETE need a truthy id, else `final`; GET shows with one and lists without |
| Routers.ServeResource | apps/BaseApp.js:31-34 | the app's headers precede every reply; a request raises iff its method is unmapped and the router was never built; with the stages bound (first Findings row), and PUT, PATCH and the id-less GET served by the corrected `Replace` and `List` |
| Routers.ServeMapped | routers/ResourceRouter.js:17-51 | a mapped method runs its stage after `setResourceId` |
| Routers.UnmappedMethodIs404 | routers/BaseRouter.js:14-16 | HEAD and other unmapped methods are a bare 404 after the headers; store untouched |
| Routers.UnbuiltRouterRaises | routers/BaseRouter.js:4-17 | before `build` every request raises |
| Routers.WriteWithoutIdIs404 | routers/ResourceRouter.js:17-51 | PUT, PATCH, DELETE without an id in the path are a bare 404 touching nothing |
| Routers.GetWithIdShows | routers/ResourceRouter.js:35-39 | GET with an id is the show stage for that id |
| Routers.GetWithoutIdLists | routers/ResourceRouter.js:35-41 | GET without an id is the list stage |
| Routers.ServeResourceAsWritten | routers/ResourceRouter.js:6-15 | as shipped: a request that reaches an app stage raises, and at most registers the table; the only reply is `final`'s 404 after the headers, with the store untouched |
| Routers.AsWrittenPartsAtStages | apps/ResourceApp.js:253-276 | the shipped and the bound app give the same result exactly on the requests that reach no app stage |
| Routers.UnboundStagesRaise | routers/ResourceRouter.js:9-14 | as shipped, POST and OPTIONS raise and touch nothing; the bound app answers both |
| Routers.ResourceOptionsIs204 | routers/ResourceRouter.js:14 | OPTIONS is 204 after the headers |
| Routers.BuildSessionsRouter | routers/SessionsRouter.js:17-25 | the five methods are mapped; the fallback is the proxy's `final` iff it has one |
| Routers.FallbackReply | routers/SessionsRouter.js:24-30 | either fallback answers a bare 404 |
| Routers.ServeSessions | apps/SessionsApp.js:29-35 | no router is the opaque 500; otherwise the app's headers precede every reply |
| Routers.UnbuiltSessionsRouter404 | routers/SessionsRouter.js:4-15 | before `build` every method is a 404 |
| Routers.SessionOptionsIs204 | apps/SessionsApp.js:131-141 | OPTIONS is 204 with the custom headers and no body |
| Routers.SessionsUnmappedIs404 | routers/SessionsRouter.js:9-15 | PUT, PATCH and other unmapped methods are a 404 |
| Payloads.New | lib/Payload.js:6-11 | metadata starts null; each getter works iff its slot was given |
| Payloads.Req | lib/Payload.js:19-24 | the request, or PAYLOAD_REQ_MISSING iff unset |
| Payloads.Response | lib/Payload.js:26-31 | the response, or PAYLOAD_RES_MISSING iff unset |
| Payloads.App | lib/Payload.js:33-38 | the app, or PAYLOAD_APP_MISSING iff unset |
| Payloads.Metadata | lib/Payload.js:40-45 | an existing object is returned; a null slot is filled with `{}`; no other slot changes |
| Payloads.SetStatus | lib/Payload.js:47-49 | sets the response status, or raises PAYLOAD_RES_MISSING |
| Payloads.NotFound | lib/Payload.js:51-54 | status 404 and the response ended, or PAYLOAD_RES_MISSING |
| Payloads.Free | lib/Payload.js:56-61 | every slot is null afterwards |
| Payloads.Process | lib/Payload.js:14-17 | hands the app to the router's handler, or PAYLOAD_APP_MISSING |
| Payloads.MetadataStable | lib/Payload.js:40-45 | a second metadata read returns the object the first created or found |
| Payloads.FreedGettersRaise | lib/Payload.js:56-61 | after `free` every getter, and `notFound`, raises its code |
| Payloads.FreedMetadataFresh | lib/Payload.js:40-61 | after `free` metadata is a fresh empty object, whatever it held |
| Payloads.NotFoundIdempotent | lib/Payload.js:51-54 | a second `notFound` changes nothing |

## Left out

- Floating-point numbers, nested objects and arrays in bodies: values are integers, strings, booleans, `null`, `NaN` and dates.
- The text of a `Date`: `String(date)` is rendered as `Date(<instant>)`. The runtime's locale-dependent text shares the one property the code relies on, that it is not a number.
- The real clock: `timestamp` takes the instant as a parameter.
- `process.env` defaults of the session adapter's constructor, the `name`, `duration` and `activeDuration` options, and all `console.error` logging.
- `proxify` and the routers' own method binding: each callback is the next stage of one function.
- Routers.ServeResource, ResourceApp.Create, ResourceApp.Replace, ResourceApp.List, ResourceApp.Show, ResourceApp.Delete: these model the stages bound. As shipped, `bindMethods` (apps/ResourceApp.js:253-276) is never called, so the router calls `app.create` and `app.options` without their `this`, and every stage hands its continuation on unbound. Every request that reaches a stage raises at its first continuation, before any policy, write or parse. `Routers.ServeResourceAsWritten` models that.
- Routers.ResourceOptionsIs204: a property of the bound app. As shipped, OPTIONS raises at `this.empty` (`Routers.UnboundStagesRaise`).
- Concurrency: requests are handled one at a time; the store is a value passed from request to request.
- The in-place mutation of the caller's condition array by `query`: each query builds its conditions afresh, so re-coercion is harmless (`Values.ParseIntIdempotent`).
- The second callback of the reference session adapter's `create`, which calls back twice: the model keeps the first reply, which is the one the client sees.
- The `headerSent` misspelling in the sessions apps' `final`: `final` is only reached before anything was sent, so it always answers 404 either way.
- The body of a HEAD reply and the framework's response `end()` calls: a reply is a status, headers and a body.
- The stub database, password and session adapters: they appear as the not-implemented outcome of a port, not as separate modules.
- The legacy app's session, database and password adapters are not part of this model; what each answers is a parameter of the verb.
- The `sanitize`, `validate` and `parseRecord` hooks are pure functions of the record; a hook that fails or throws is not modelled.
- A request body that is not an object: `req.body` is always a record.
- The white-space set `parseInt` skips covers the common characters, not every Unicode space separator.
- Unique-field conflict detection and owner-scoped listing: no code for them exists.
- apps/UsersApp.js and lib/PayloadError.js: the first is only a constructor guard; the second is not valid JavaScript (a rest parameter before others).
- `Payload.process` with the app routers: the routers here take the request and response, not a payload, so the router's handling is a parameter.
- Payloads.Metadata: object identity is approximated by value equality; "the same object" is stated as "the same contents".
- MockSession.Project: an exposed field the record lacks is left absent, where the source assigns it `undefined`; the two read alike and are both left out of a JSON reply.
- MockDatabase.Insert: the id counter is one per store value, where the source keeps one module-wide counter shared by every adapter instance; one store is modelled at a time.
- ResourceApp.List: a `parseRecord` hook is taken to return the record it rewrote in place. `parseList` discards the hook's return value and answers the original rows, so a hook that returns a new object without changing its argument would list unparsed rows in the source and parsed rows here.
- Policies.Decide: `OwnerPolicy` calls `this.disabled` and `this.notFound` and reads `this.app.session.fields`, and none of the policy classes or session adapters define them, so as shipped every owner decision raises. The model gives the owner policy its disabled-action set and its role and association field names as data, and reads `notFound` as a NotFound denial.
- Policies.UserUpdateAdminOrSelf: it reads the role field through the same undefined `this.app.session.fields`, and with no session handler at all it answers Unauthorized, where `this.app.session.data(req, res)` would raise.
- MockSession.Load, MockSession.Create, MockSession.CreateForStoredUser, MockSession.TokenRoundTrip, SessionsApp.CreateSession, SessionsApp.Authorize, SessionsApp.CreateFindsMatchedUser, SessionsApp.SignInSucceeds, SessionsApp.SignInThenInfo, SessionsApp.EmptyExposeUnauthorized: these take the reference session adapter as attached to the sessions app, reading its database, table and primary field. As shipped, the adapter's constructor sets `app` to `null` (test/mocks/MockSessionAdapter.js:11) and nothing assigns it, so every `create` raises at `this.app.fields` and every `load` of a token carrying the secret raises at `this.app.database`. No sign-in then reaches 201 and no GET reaches 200. `MockSession.LoadDetached`, `SessionsApp.CreateSessionAsWritten`, `SessionsApp.SignInAsWritten` and `SessionsApp.AuthorizeAsWritten` model that.
- Values.ParseInt, Values.ParseIntOfIntToString: numbers are read as unbounded integers, and `String` prints every integer in plain digits. In JavaScript `String` switches to exponent form from 1e21 in magnitude, so `parseInt(String(1e21), 10)` is 1; integers beyond 2^53 are not even exact. The round trip holds in JavaScript only below 1e21 in magnitude.
- MockSession.Load: a user name containing the separator, or an unset secret, is modelled by `split` and `String(undefined)` but not proved about.
- SessionsApp.Info, SessionsApp.Head, SessionsApp.SignOut: the contracts state when the success statuses can occur; the full outcome is stated by the lemmas about them.

## Findings

| source | as written | input that shows it | evidently intended | confidence | as-written member | corrected member |
|---|---|---|---|---|---|---|
| apps/ResourceApp.js:253-276 | `bindMethods` is never called: the base app's constructor only runs `proxify` (apps/BaseApp.js:24), and the base app has no `bindMethods` for it to extend. The router maps the unbound `app.create` and `app.options`, and each stage passes its continuation on unbound | a built resource app and `OPTIONS /` or `POST /`: a TypeError at the first use of `this`; any PUT, PATCH, DELETE or GET that reaches a stage raises the same way in its first continuation | the constructor binds the stages, as the repository's tests of the resource app expect | high, not executed | Routers.UnboundStagesRaise | Routers.ServeResource |
| src/App.js:107-112 | `signOutSessionDestroy` calls `empty(req, res)`, so `empty` sees the request as its error and `error` calls `status` on an undefined response | an authorized DELETE whose `destroy` succeeds | `empty(null, req, res)`, answering 204 as the current app does | high, not executed | LegacyApp.SignOutAsWrittenRaises | LegacyApp.SignOut |
| apps/ResourceApp.js:134-139 | PUT keeps a client `id` in the body, and the store's replace merges it into the stored record | once the stages are bound (first row): store items `[{id:1},{id:2}]`, `PUT /1` with body `{"id": 2}` answers 200 and leaves two records with id 2 | strip `id` as PATCH does (line 132); the reply already uses the path id | medium (as shipped the unbound `replaceFound` raises first), not executed | ResourceProperties.PutClientIdBreaksIds | ResourceProperties.PutClientIdKeepsIds |
| apps/ResourceApp.js:46-52 | the reference store hands out its live rows for an unconditioned query, and `parseList` rewrites each row in place | once the stages are bound (first row): a `parseRecord` that deletes `password`, then `GET /` on a table with one user: the stored user loses its password | listing reads the rows without changing them | medium (as shipped the unbound `listAllowed` raises first), not executed | ResourceProperties.ListRewritesStore | ResourceApp.List |
| policies/UserPolicy.js:8 | `update` calls `this.app.session.data()` with no arguments, and the session adapter's `data` reads `res.locals` | any PUT or PATCH under the user policy, even by an admin | `data(req, res)`, deciding admin-or-self on the actor | high, not executed | Policies.UserUpdateAsWrittenRaises | Policies.UserUpdateAdminOrSelf |
| src/adapters/PasswordAdapter.js:4-6 | the legacy base password adapter calls back `(err, false, req, res)`, so the app's `error` gets `false` as the request and the request as the response, whose `status` call raises | the legacy app with the base password adapter and a matching user | the not-implemented error answered as the opaque 500 | medium, not executed | LegacyApp.StubPasswordRaises | LegacyApp.SignIn |
| test/mocks/MockSessionAdapter.js:8-12 | the reference session adapter sets `this.app = null`, and neither the sessions app (apps/SessionsApp.js:18 only stores the adapter) nor the tests ever attach it; `create` reads `this.app.fields` and `load` reads `this.app.database` | a stored user `abc` with password `123`, then `POST /` with those credentials: a TypeError at `this.app.fields` where the sessions app's tests expect 201; any GET with a token ending in the secret raises the same way | the sessions app attaches itself to its session adapter, so the adapter reads its database, table and fields | high, not executed | SessionsApp.ShippedSignInRaises | SessionsApp.SignInSucceeds |

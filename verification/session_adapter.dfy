/** The base session adapter: the `authorize` handshake every gated verb
    goes through, and the stub `load`/`create`/`destroy` a concrete adapter
    is meant to override. Session data lives in the response locals; here
    it is the value `res.locals.session` holds after `load` has run. */
module SessionAdapter {
  import opened Wrappers
  import opened Values
  import opened Errors

  const NotImplemented: Error := Plain("SESSION_ADAPTER_NOT_IMPLEMENTED")
  const UnauthorizedError: Error := Plain("UNAUTHORIZED")

  /** What `load` left behind: the error it reported and the session data
      the response locals then hold. */
  datatype LoadResult = LoadResult(error: Option<Error>, session: Option<Record>)

  /** What `authorizeLoaded` does with the callback stored on the request:
      nothing but a bare 500 when none is stored, otherwise call it once
      with an error or with the session data. */
  datatype Authorization = MissingCallback | Delivered(result: Result<Record, Error>)

  /** `authorizeLoaded`: the request's callback slot after the call (always
      cleared) and what happened. */
  datatype AfterLoad = AfterLoad(pending: bool, outcome: Authorization)

  /** `authorizeLoaded(err)`. A load error passes through; otherwise data
      that is absent or whose `id` is falsy (0 and "" included) is
      `UNAUTHORIZED`, and data with a truthy `id` is delivered. */
  function AuthorizeLoaded(pending: bool, loaded: LoadResult): (r: AfterLoad)
    ensures !r.pending
    ensures r.outcome.MissingCallback? <==> !pending
    ensures pending && loaded.error.Some? ==> r.outcome == Delivered(Failure(loaded.error.value))
    ensures r.outcome.Delivered? && r.outcome.result.Success? <==>
              pending && loaded.error.None? && loaded.session.Some? && Truthy(Get(loaded.session.value, "id"))
    ensures r.outcome.Delivered? && r.outcome.result.Success? ==> r.outcome.result.value == loaded.session.value
    ensures pending && loaded.error.None? && !(loaded.session.Some? && Truthy(Get(loaded.session.value, "id"))) ==>
              r.outcome == Delivered(Failure(UnauthorizedError))
  {
    if !pending then AfterLoad(false, MissingCallback)
    else if loaded.error.Some? then AfterLoad(false, Delivered(Failure(loaded.error.value)))
    else match loaded.session
      case None => AfterLoad(false, Delivered(Failure(UnauthorizedError)))
      case Some(data) =>
        if !Truthy(Get(data, "id")) then AfterLoad(false, Delivered(Failure(UnauthorizedError)))
        else AfterLoad(false, Delivered(Success(data)))
  }

  /** `authorize`: store the callback on the request, run `load`, then
      `authorizeLoaded`. */
  function Authorize(loaded: LoadResult): AfterLoad {
    AuthorizeLoaded(true, loaded)
  }

  /** Going through `authorize` the callback is always there: the 500
      branch is reached only by a second, stray `authorizeLoaded`, which
      finds the slot already cleared. */
  lemma AuthorizeDeliversOnce(loaded: LoadResult, again: LoadResult)
    ensures Authorize(loaded).outcome.Delivered?
    ensures AuthorizeLoaded(Authorize(loaded).pending, again).outcome == MissingCallback
  {
  }

  /** Whatever `authorize` delivers as session data has a truthy `id`, and
      every failure is either the load error or `UNAUTHORIZED`. */
  lemma AuthorizedDataHasId(loaded: LoadResult)
    ensures Authorize(loaded).outcome.result.Success? ==>
              Truthy(Get(Authorize(loaded).outcome.result.value, "id"))
    ensures Authorize(loaded).outcome.result.Failure? ==>
              Authorize(loaded).outcome.result.error == UnauthorizedError
              || Some(Authorize(loaded).outcome.result.error) == loaded.error
  {
  }

  /** A session whose id is the number 0 is refused like a missing one. */
  lemma ZeroIdIsUnauthorized(data: Record)
    requires Get(data, "id") == Some(VNum(0))
    ensures Authorize(LoadResult(None, Some(data))).outcome == Delivered(Failure(UnauthorizedError))
  {
  }

  /** `data(req, res)`: the session data is `res.locals.session`. */
  function Data(locals: Option<Record>): Option<Record> {
    locals
  }

  /** The base `load`: reports not-implemented and leaves the locals. */
  function BaseLoad(locals: Option<Record>): LoadResult {
    LoadResult(Some(NotImplemented), Data(locals))
  }

  /** The base `create` and `destroy`: the error they call back with. */
  function BaseCreate(): Option<Error> {
    Some(NotImplemented)
  }

  function BaseDestroy(): Option<Error> {
    Some(NotImplemented)
  }

  /** With the base adapter every authorization fails with the
      not-implemented error, whatever the locals hold. */
  lemma BaseAuthorizeFails(locals: Option<Record>)
    ensures Authorize(BaseLoad(locals)).outcome == Delivered(Failure(NotImplemented))
  {
  }
}

/** What a handler chain finally does with the response object: one reply
    (status, headers set along the way, body), or an exception that
    escaped the chain before any reply was written. */
module Http {
  import opened Values

  datatype Header = Header(name: string, value: string)

  /** An empty body (`res.end()`), a JSON object or a JSON array. */
  datatype Body = NoBody | JsonRecord(record: Record) | JsonList(records: seq<Record>)

  datatype Reply = Reply(status: int, headers: seq<Header>, body: Body)

  /** The outcome of one request. `Threw` is an exception thrown inside the
      chain, so that no reply of the app's own is written. */
  datatype Outcome = Replied(reply: Reply) | Threw(reason: string)

  /** `res.status(code).end()`. */
  function Status(code: int): Reply {
    Reply(code, [], NoBody)
  }

  /** `res.status(code).json(record)`. */
  function Json(code: int, r: Record): Reply {
    Reply(code, [], JsonRecord(r))
  }

  /** The body every app answers an unrecognised error with. */
  const InternalErrorBody: Record := map["code" := VStr("INTERNAL_ERROR")]

  /** `res.status(500).json({code: 'INTERNAL_ERROR'})`. */
  const InternalError: Reply := Json(500, InternalErrorBody)

  /** Headers set on the response before the reply is written come first. */
  function WithHeaders(hs: seq<Header>, r: Reply): Reply {
    r.(headers := hs + r.headers)
  }
}

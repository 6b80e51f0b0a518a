/** The error taxonomy: the four error classes of the framework, each a
    JavaScript `Error` subclass whose message defaults to the class's code
    and whose `status` is fixed, and the plain `Error` values the adapters
    and apps raise with a code as message and no status. */
module Errors {
  import opened Wrappers

  /** The argument an error constructor received: nothing (`undefined`),
      `null`, or a string. */
  datatype MessageArg = NoMessage | NullMessage | Message(text: string)

  /** An error as every handler sees it: the two fields the status mapping
      reads. A plain `Error` has no `status`. */
  datatype Error = Error(message: string, status: Option<int>)

  /** The error classes with a fixed status. */
  datatype Kind = Unauthorized | Forbidden | NotFound | Conflict

  function StatusOf(k: Kind): int {
    match k
    case Unauthorized => 401
    case Forbidden => 403
    case NotFound => 404
    case Conflict => 409
  }

  function DefaultMessage(k: Kind): string {
    match k
    case Unauthorized => "UNAUTHORIZED"
    case Forbidden => "FORBIDDEN"
    case NotFound => "NOT_FOUND"
    case Conflict => "CONFLICT"
  }

  /** The `message` the built-in `Error` constructor stores: every argument
      other than `undefined` is converted to a string, so `null` becomes
      the text "null". */
  function ArgText(a: MessageArg): string {
    match a
    case NoMessage => ""
    case NullMessage => "null"
    case Message(t) => t
  }

  /** `new Error(msg)`. */
  function Plain(msg: string): (e: Error)
    ensures e.status.None? && e.message == msg
  {
    Error(msg, None)
  }

  /** `new UnauthorizedError(arg)`, `new ForbiddenError(arg)`,
      `new NotFoundError(arg)`, `new ConflictError(arg)`: an empty message
      is replaced by the class's code, a non-empty one is kept, and the
      status is the class's. */
  function Make(k: Kind, a: MessageArg): (e: Error)
    ensures e.status == Some(StatusOf(k))
    ensures e.message != ""
    ensures ArgText(a) != "" ==> e.message == ArgText(a)
    ensures ArgText(a) == "" ==> e.message == DefaultMessage(k)
  {
    var text := ArgText(a);
    Error(if text == "" then DefaultMessage(k) else text, Some(StatusOf(k)))
  }

  /** Re-raising an error as its own class with its own message yields the
      same error: the default is applied at most once. */
  lemma MakeIsStable(k: Kind, a: MessageArg)
    ensures Make(k, Message(Make(k, a).message)) == Make(k, a)
  {
  }

  /** Distinct classes never produce the same error, whatever the messages. */
  lemma MakeDistinguishesKinds(k1: Kind, a1: MessageArg, k2: Kind, a2: MessageArg)
    requires k1 != k2
    ensures Make(k1, a1) != Make(k2, a2)
  {
  }
}

/**
  What a request to the board server can come back with, as the context sees it after
  `await fetch(...)` and `await response.json()`. The transport, the headers, the bearer
  token and the JSON text itself are not modelled: an operation receives the outcome.
 */
module Http {
  import opened Wrappers
  import opened Js

  /** The JSON value at `body.data` (or one of its array entries' shape `T`). */
  datatype Payload<T> = Scalar(v: Value) | Items(items: seq<T>) | Entity(entity: T)

  /** The result of `response.json()`: a JSON object `{status, message, data}` or a parse error. */
  datatype Body<T> =
    | NotJson(parseError: string)
    | Json(status: Value, message: Option<string>, data: Payload<T>)

  /** A request's outcome: `fetch` rejected (network), rejected with an AbortError, or a response. */
  datatype Reply<T> =
    | NetworkFailure(message: string)
    | Aborted(message: string)
    | Response(ok: bool, httpStatus: nat, body: Body<T>)

  /** An entry of the boards reply: `{id, name}` (other keys are ignored by the client). */
  datatype ServerBoard = ServerBoard(id: Value, name: Value)

  /** An entry of a lists or cards reply, or a created/updated list or card: `{id, title, position}`. */
  datatype ServerItem = ServerItem(id: Value, title: Value, position: Value)

  /** The message of the error that a failed request throws into the `catch` block, if any. */
  function ThrownMessage<T>(reply: Reply<T>): Option<string>
  {
    match reply
    case NetworkFailure(m) => Some(m)
    case Aborted(m) => Some(m)
    case Response(_, _, body) => if body.NotJson? then Some(body.parseError) else None
  }

  /** `data.message || fallback` */
  function MessageOr(message: Option<string>, fallback: string): (r: string)
    ensures message.Some? && message.value != "" ==> r == message.value
    ensures message.None? || message.value == "" ==> r == fallback
  {
    if message.Some? && message.value != "" then message.value else fallback
  }

  /** Reading the fields of `data.data`: a TypeError when it is nullish (the first field read is
      `id`); an array or another primitive has no such fields and yields `undefined`s. */
  function ReadEntry(p: Payload<ServerItem>): (r: Result<ServerItem, string>)
    ensures r.Err? <==> p.Scalar? && Nullish(p.v)
    ensures r.Err? ==> r.error == CannotReadMessage(p.v, "id")
    ensures p.Entity? ==> r == Ok(p.entity)
    ensures p.Items? || (p.Scalar? && !Nullish(p.v)) ==> r == Ok(ServerItem(Undefined, Undefined, Undefined))
  {
    match p
    case Entity(e) => Ok(e)
    case Items(_) => Ok(ServerItem(Undefined, Undefined, Undefined))
    case Scalar(v) => if Nullish(v) then Err(CannotReadMessage(v, "id")) else Ok(ServerItem(Undefined, Undefined, Undefined))
  }
}

/** What a handler answers: a success reply with its HTTP status, or an
    error carrying the status the handler raised it with and its message.
    On the client side a request either gets such a reply or fails before
    any reply arrives. */
module Api {
  datatype Reply = Ok(code: int, message: string) | Error(code: int, message: string)

  /** The outcome of an HTTP call as the client sees it. */
  datatype HttpResult = Answered(reply: Reply) | Unreachable

  /** An axios call resolves on a success reply and rejects otherwise. */
  predicate Succeeded(r: HttpResult)
  {
    r.Answered? && r.reply.Ok?
  }

  /** `err?.response?.data?.message || fallback` for a rejected call: the
      server's message when there is a non-empty one, the fallback
      otherwise. */
  function ErrorMessage(r: HttpResult, fallback: string): (m: string)
    ensures fallback != "" ==> m != ""
    ensures r.Answered? && r.reply.message != "" ==> m == r.reply.message
    ensures (r.Unreachable? || r.reply.message == "") ==> m == fallback
  {
    if r.Answered? && r.reply.message != "" then r.reply.message else fallback
  }
}

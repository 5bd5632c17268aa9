/**
 * How a request to the hotel backend ended, as the views see it: the fetch
 * or the decoding of the body threw with a message, or an answer arrived
 * with its HTTP status and the JSON fields `success`, `error` ("" when
 * absent) and a payload.
 */
module Backend {

  datatype Reply<D> =
    | Thrown(message: string)
    | Answered(ok: bool, status: int, statusText: string, success: bool, error: string, data: D)
  {
    /** `response.ok && data.success` */
    predicate Succeeded() {
      Answered? && ok && success
    }
  }

  /** A request a view sends: method, path and the query or body parameters, in order. */
  datatype Request = Request(verb: string, url: string, params: seq<(string, string)>)
}

/** The request/response vocabulary shared by every resource client: the
    descriptor a client hands to the request executor (`do`), the reply it gets
    back, the header names the clients set or read, and the errors they see. */
module Protocol {

  datatype Option<T> = None | Some(value: T)

  /** An error a client operation returns. `ETagRequired` is raised locally,
      before any request; `BadMasterKey` when the account key does not decode;
      the other two come out of the executor and are passed through verbatim. */
  datatype Error =
    | ETagRequired
    | BadMasterKey
    | Transport(reason: string)
    | Status(httpStatus: int, code: string, message: string)

  datatype Result<T> = Ok(value: T) | Err(error: Error)

  datatype Verb = GET | POST | DELETE

  const StatusOK: int := 200
  const StatusCreated: int := 201
  const StatusNoContent: int := 204

  const ContinuationHeader: string := "X-Ms-Continuation"
  const IfMatchHeader: string := "If-Match"

  /** Header names are kept in the canonical form the clients write them in. */
  type Headers = map<string, string>

  /** Everything a client passes to the executor for one call: verb, URL path,
      the resource-type tag and resource link the signature covers, the one
      status that counts as success, the entity to send, the extra headers. */
  datatype Request<T> = Request(
    verb: Verb,
    path: string,
    resourceType: string,
    resourceLink: string,
    expectedStatus: int,
    body: Option<T>,
    headers: Headers)

  /** What the executor answers: an error, or the decoded body with the
      response headers. */
  datatype Reply<B> = Failed(err: Error) | Answered(body: B, headers: Headers)

  /** Value of a header, or "" when the header is absent. */
  function HeaderGet(h: Headers, name: string): (v: string)
    ensures name !in h ==> v == ""
    ensures name in h ==> v == h[name]
  {
    if name in h then h[name] else ""
  }

  /** The headers of a listing request: the stored continuation token, and
      only when there is one (never an empty header). */
  function ContinuationHeaders(continuation: string): (h: Headers)
    ensures ContinuationHeader in h <==> continuation != ""
    ensures HeaderGet(h, ContinuationHeader) == continuation
    ensures forall name | name in h :: name == ContinuationHeader
  {
    if continuation != "" then map[ContinuationHeader := continuation] else map[]
  }

  /** The headers of a delete: the entity tag as the `If-Match` precondition. */
  function IfMatchHeaders(etag: string): (h: Headers)
    ensures h.Keys == {IfMatchHeader}
    ensures HeaderGet(h, IfMatchHeader) == etag
  {
    map[IfMatchHeader := etag]
  }
}

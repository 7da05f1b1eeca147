/**
 * The batch contract shared by the gateway's handlers: which HTTP methods
 * carry requests, how a body becomes a list of requests, the cap of 50
 * requests per call, and the `{status, message, data}` response envelope.
 */
module Gateway {

  import opened Common

  datatype HttpMethod = GET | POST | OPTIONS | OtherMethod(name: string)

  /** A POST body is either one JSON object or a JSON array of them. */
  datatype Payload<T> = Single(item: T) | Many(items: seq<T>)

  const MaxBatch: nat := 50
  const TooManyMessage := "Too many requests. Please provide 50 or fewer requests in a single call."
  const InvalidMethodMessage := "Invalid request method"

  /**
   * The requests one call carries: a GET carries its parsed query string as a
   * single request; a POST carries its array body, or its object body wrapped
   * in a one-element list; any other method carries none (`None`).
   */
  function Requests<T>(verb: HttpMethod, query: T, body: Payload<T>): (r: Option<seq<T>>)
    ensures r.Some? <==> verb == GET || verb == POST
    ensures verb == GET ==> r == Some([query])
    ensures verb == POST && body.Single? ==> r == Some([body.item])
    ensures verb == POST && body.Many? ==> r == Some(body.items)
  {
    match verb
    case GET => Some([query])
    case POST => (match body case Single(x) => Some([x]) case Many(xs) => Some(xs))
    case _ => None
  }

  /** Over the cap: more than 50 requests. */
  predicate TooMany<T>(reqs: seq<T>) {
    |reqs| > MaxBatch
  }

  /** The JSON body of a handler's reply. */
  datatype Body<T> =
    | Envelope(status: bool, message: string, data: Option<seq<T>>)
    | InterfaceDescription   // the static self-description returned for OPTIONS

  /** An HTTP reply: status code and JSON body. */
  datatype Reply<T> = Reply(code: int, body: Body<T>)

  /** The 500 reply for an uncaught error: `Error: <message>` and no data. */
  function Failure<T>(message: string): (r: Reply<T>)
    ensures r.code == 500 && r.body.Envelope? && !r.body.status && r.body.data.None?
    ensures r.body.message == "Error: " + message
  {
    Reply(500, Envelope(false, "Error: " + message, None))
  }
}

/** Requests as the code builds them with `reqwest`, and the network as an
    oracle: sending a request, and decoding a response body as JSON
    (`res.json()`), are functions supplied by the caller. */
module Http {
  import opened Wrappers
  import opened Json

  datatype Verb = Get | Post | Delete

  /** A request as built by `Client::new().<verb>(url)`, `.bearer_auth(..)`,
      `.header(..)` and `.json(..)`. */
  datatype Request = Request(
    verb: Verb,
    url: string,
    bearer: Option<string>,
    headers: seq<(string, string)>,
    body: Option<Json>)

  /** An HTTP response; `debug` is its `{:?}` rendering. */
  datatype Response = Response(status: int, debug: string, body: seq<char>)

  /** The remote side: `send` is `.send()`, `json` is `res.json()` read as a
      JSON value; each failure carries the error's display text.
      `unitError` is the text of the error serde_json gives when a body that
      is JSON but not `null` is read as `()`. */
  datatype Transport = Transport(
    send: Request -> Result<Response, string>,
    json: Response -> Result<Json, string>,
    unitError: Response -> string)

  /** Send a request and decode its body, passing either error through as
      `format!("{}", e)` does. */
  function SendJson(net: Transport, req: Request): (r: Result<Json, string>)
    ensures net.send(req).Failure? ==> r == Failure(net.send(req).error)
    ensures net.send(req).Success? ==> r == net.json(net.send(req).value)
  {
    match net.send(req)
    case Failure(e) => Failure(e)
    case Success(res) => net.json(res)
  }
}

/** HTTP as the clients see it. A remote service is a finite script of
    exchanges that it plays back one per request; every request sent is
    recorded. Transport and JSON decoding are outside the model: a response
    carries its status, its body text and, when the body is JSON, the decoded
    document. */
module Http {
  import opened Py

  datatype Response = Response(status: int, text: string, payload: Option<Json>)

  /** What one request brings back: a response, or a transport failure. */
  datatype Exchange = Reply(response: Response) | Unreachable

  datatype Verb = GET | POST

  datatype Request = Request(verb: Verb, url: string, header: map<string, Json>, data: map<string, Json>)

  /** The remote side of a client: the exchanges still to come and the requests sent so far. */
  datatype Wire = Wire(script: seq<Exchange>, sent: seq<Request>)

  /** Sends `req`: the next scripted exchange answers it (a transport failure
      once the script is exhausted). */
  function Send(w: Wire, req: Request): (Exchange, Wire) {
    if w.script == [] then (Unreachable, Wire([], w.sent + [req]))
    else (w.script[0], Wire(w.script[1..], w.sent + [req]))
  }

  /** `requests.Response.raise_for_status`: 4xx and 5xx raise HTTPError. */
  function RaiseForStatus(r: Response): Result<()> {
    if 400 <= r.status < 600 then Err(HTTPError(r.status)) else Ok(())
  }

  /** `requests.Response.json`. */
  function DecodeJson(r: Response): Result<Json> {
    match r.payload
    case Some(j) => Ok(j)
    case None => Err(JSONDecodeError)
  }

  /** The decoded body of a response that does not raise, if it has one. */
  function SuccessPayload(x: Exchange): Option<Json> {
    if x.Reply? && !(400 <= x.response.status < 600) then x.response.payload else None
  }
}

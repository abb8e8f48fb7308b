/**
 * ultimonitor/apitools.py: where a request to the printer's HTTP API goes,
 * and how its answer is gated. The network is a parameter: `get` and `put`
 * give the outcome of a request to a URL.
 */
module ApiTools {
  import opened Text

  /** What a GET or PUT to a URL came back with. */
  datatype HttpOutcome = RequestRaised | Responded(statusCode: int, content: string)

  /** `queryChecker`'s answer: `{}` on any failure, else the decoded JSON body (kept as its text). */
  datatype Reply = EmptyReply | JsonReply(content: string)

  /** What `setProperty` does after its PUT: nothing, log a failure, or let the exception escape. */
  datatype PutOutcome = Accepted | FailureLogged | PutRaised

  const DefaultGoodStatus: int := 200
  const DefaultGoodPut: int := 204

  /** The base of every request: the address as given if it starts with "http", else the v1 API on it. */
  function ApiBase(printerip: string): (r: string)
    ensures StartsWith(r, "http")
    ensures StartsWith(printerip, "http") ==> r == printerip
    ensures !StartsWith(printerip, "http") ==>
      && |r| == |printerip| + 15
      && r[..7] == "http://"
      && r[7..7 + |printerip|] == printerip
      && r[7 + |printerip|..] == "/api/v1/"
  {
    if StartsWith(printerip, "http") then printerip
    else "http://" + printerip + "/api/v1/"
  }

  /** Prefixing is idempotent: a base used as the address is its own base. */
  lemma ApiBaseIdempotent(printerip: string)
    ensures ApiBase(ApiBase(printerip)) == ApiBase(printerip)
  {
  }

  /** The request URL: base and endpoint concatenated, with no separator added. */
  function RequestUrl(printerip: string, endpoint: string): (r: string)
    ensures |r| == |ApiBase(printerip)| + |endpoint|
    ensures r[..|ApiBase(printerip)|] == ApiBase(printerip)
    ensures r[|ApiBase(printerip)|..] == endpoint
  {
    ApiBase(printerip) + endpoint
  }

  /** `queryChecker`: the decoded body exactly when the GET answered with `goodStatus`, else `{}`. */
  function QueryChecker(printerip: string, endpoint: string, get: string -> HttpOutcome,
                        goodStatus: int): (r: Reply)
    ensures var o := get(RequestUrl(printerip, endpoint));
      r.JsonReply? <==> o.Responded? && o.statusCode == goodStatus
    ensures r.JsonReply? ==> r.content == get(RequestUrl(printerip, endpoint)).content
  {
    match get(RequestUrl(printerip, endpoint))
    case RequestRaised => EmptyReply
    case Responded(code, content) => if code == goodStatus then JsonReply(content) else EmptyReply
  }

  /** An unreachable printer, one that raises on every request, only ever yields `{}`. */
  lemma UnreachableGivesEmpty(printerip: string, endpoint: string, goodStatus: int)
    ensures QueryChecker(printerip, endpoint, _ => RequestRaised, goodStatus) == EmptyReply
  {
  }

  /**
   * `setProperty`: the PUT goes to the same URL a GET would; a status other
   * than `goodVal` is only logged, and an exception from the request escapes.
   */
  function SetProperty(printerip: string, endpoint: string, put: string -> HttpOutcome,
                       goodVal: int): (r: PutOutcome)
    ensures var o := put(RequestUrl(printerip, endpoint));
      && (r == PutRaised <==> o.RequestRaised?)
      && (r == Accepted <==> o.Responded? && o.statusCode == goodVal)
  {
    match put(RequestUrl(printerip, endpoint))
    case RequestRaised => PutRaised
    case Responded(code, _) => if code == goodVal then Accepted else FailureLogged
  }
}

/** The upstream HTTP API, replaced by a fixed lookup from URL to response. */
module Network {
  import opened Values

  /** A response: its status code and its body, `None` when the body is not JSON. */
  datatype Response = Response(status: int, body: Option<Json>)

  /** What every URL answers; a URL without an entry cannot be reached. */
  type Web = map<string, Response>

  /** The statuses on which `raise_for_status` raises. */
  predicate IsErrorStatus(status: int)
  {
    400 <= status < 600
  }

  /** `get(url)` followed by `raise_for_status()` and `json()`: the decoded
      body, or the first exception of the three steps. */
  function Get(web: Web, url: string): (r: Outcome<Json>)
    ensures r.Ok? <==> url in web && !IsErrorStatus(web[url].status) && web[url].body.Some?
    ensures r.Ok? ==> r.value == web[url].body.value
    ensures r.Raised? ==> IsRequestException(r.error)
    ensures url in web && IsErrorStatus(web[url].status) ==> r == Raised(HttpError(web[url].status))
  {
    if url !in web then Raised(ConnectionError(url))
    else if IsErrorStatus(web[url].status) then Raised(HttpError(web[url].status))
    else
      match web[url].body
      case None => Raised(JsonDecodeError)
      case Some(body) => Ok(body)
  }
}

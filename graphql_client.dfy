/** One GraphQL round trip: the request the client builds around a query body and a
    session token, and the classification of what comes back. The transport itself is
    an input: the outcome of sending a request is an `Exchange`. */
module GraphQLClient {
  import opened Wrappers
  import opened Text
  import opened Models

  const Endpoint := "https://leetcode.com/graphql"
  const Origin := "https://leetcode.com"
  const SessionCookieName := "LEETCODE_SESSION"
  const RequestTimeoutSeconds := 30

  datatype Request = Request(
    url: string,
    httpMethod: string,
    body: string,
    headers: seq<(string, string)>,
    timeoutSeconds: int)

  /** The value of the first header with the given name, if any. */
  function HeaderValue(headers: seq<(string, string)>, name: string): Option<string> {
    if headers == [] then None
    else if headers[0].0 == name then Some(headers[0].1)
    else HeaderValue(headers[1..], name)
  }

  /** The session token a request presents, read back from its `Cookie` header. */
  function SessionOf(r: Request): Option<string> {
    match HeaderValue(r.headers, "Cookie")
    case None => None
    case Some(h) =>
      var prefix := SessionCookieName + "=";
      if StartsWith(h, prefix) then Some(h[|prefix|..]) else None
  }

  /** The POST to the endpoint: JSON content type, a browser user agent, the session
      cookie and the site as referer, with a 30-second timeout. */
  function BuildRequest(body: string, cookie: string): (r: Request)
    ensures r.url == Endpoint && r.httpMethod == "POST" && r.body == body
    ensures SessionOf(r) == Some(cookie)
    ensures HeaderValue(r.headers, "Content-Type") == Some("application/json")
    ensures HeaderValue(r.headers, "User-Agent").Some? && HeaderValue(r.headers, "User-Agent").value != ""
    ensures HeaderValue(r.headers, "Referer") == Some(Origin)
    ensures r.timeoutSeconds == RequestTimeoutSeconds
  {
    var cookieHeader := SessionCookieName + "=" + cookie;
    assert cookieHeader[|SessionCookieName + "="|..] == cookie;
    var headers := [
      ("Content-Type", "application/json"),
      ("User-Agent", "Mozilla/5.0"),
      ("Cookie", cookieHeader),
      ("Referer", Origin)];
    assert headers[1..][1..] == headers[2..] && headers[2..][1..] == headers[3..];
    assert HeaderValue(headers, "Cookie") == HeaderValue(headers[1..], "Cookie")
      == HeaderValue(headers[2..], "Cookie") == Some(cookieHeader);
    assert HeaderValue(headers, "Referer") == HeaderValue(headers[1..], "Referer")
      == HeaderValue(headers[2..], "Referer") == HeaderValue(headers[3..], "Referer") == Some(Origin);
    Request(Endpoint, "POST", body, headers, RequestTimeoutSeconds)
  }

  /** What sending a request produced. `statusCode` is absent when the response is not
      an HTTP response, `text` is absent when the body is not UTF-8, and `decoded` is
      the outcome of decoding the body as an envelope. */
  datatype Exchange<R> =
    | TransportFailed
    | Received(statusCode: Option<int>, text: Option<string>, decoded: Option<GraphQLRoot<R>>)

  /** The failures `query` throws: the transport's own error, `APIError` with the
      status code, `AuthenticationError` for an HTML page, and a decoding error. */
  datatype FetchError = TransportError | ApiError(statusCode: int) | AuthenticationError | DecodingError

  predicate StatusAccepted<R>(x: Exchange<R>)
    requires x.Received?
  {
    x.statusCode.None? || x.statusCode == Some(200)
  }

  ghost predicate HtmlBody<R>(x: Exchange<R>)
    requires x.Received?
  {
    x.text.Some? && OpensWithTag(x.text.value)
  }

  /** The checks `query` applies to a response, in order: status, then HTML marker,
      then decoding. The envelope's `data` is returned whatever its `errors` hold. */
  function Classify<R>(x: Exchange<R>): (r: Result<R, FetchError>)
    ensures r == Err(TransportError) <==> x.TransportFailed?
    ensures (r.Err? && r.error.ApiError?) <==> x.Received? && x.statusCode.Some? && x.statusCode.value != 200
    ensures r.Err? && r.error.ApiError? ==> r.error.statusCode == x.statusCode.value
    ensures r == Err(AuthenticationError) <==> x.Received? && StatusAccepted(x) && HtmlBody(x)
    ensures r == Err(DecodingError) <==> x.Received? && StatusAccepted(x) && !HtmlBody(x) && x.decoded.None?
    ensures r.Ok? <==> x.Received? && StatusAccepted(x) && !HtmlBody(x) && x.decoded.Some?
    ensures r.Ok? ==> r.value == x.decoded.value.data
  {
    match x
    case TransportFailed => Err(TransportError)
    case Received(status, text, decoded) =>
      if status.Some? && status.value != 200 then Err(ApiError(status.value))
      else if text.Some? && (LooksLikeHtmlIff(text.value); LooksLikeHtml(text.value)) then Err(AuthenticationError)
      else if decoded.None? then Err(DecodingError)
      else Ok(decoded.value.data)
  }

  /** `query`: build the request, send it, classify the response. */
  function Query<R>(body: string, cookie: string, send: Request -> Exchange<R>): Result<R, FetchError> {
    Classify(send(BuildRequest(body, cookie)))
  }
}

/** Two z/OSMF REST request variants: a JSON PUT that requires a body and a GET returning a
    byte stream that refuses one. Each checks its preconditions, issues at most one call to the
    transport, and wraps a transport failure as a request failure carrying the same message. */
module RestRequests {
  import opened Lang
  import opened Connections

  const URL_NULL := "url is null"
  const BODY_NULL := "body is null"
  const BODY_INVALID := "setting body for this request is invalid"

  const CONTENT_TYPE_KEY := "Content-Type"
  const JSON_CONTENT_TYPE := "application/json"
  const X_CSRF_ZOSMF_HEADER_KEY := "X-CSRF-ZOSMF-HEADER"
  const X_CSRF_ZOSMF_HEADER_VALUE := "true"
  const AUTHORIZATION_KEY := "Authorization"
  /** The Basic authentication scheme of section 2 of RFC 7617. */
  const BASIC_PREFIX := "Basic "

  type Headers = map<string, string>

  /** The body of a reply: a JSON document (its text) or raw bytes. */
  datatype Payload = JsonPayload(json: string) | BytePayload(bytes: seq<bv8>)

  /** What the transport hands back when the call completes. */
  datatype HttpReply = HttpReply(statusCode: int, statusText: string, payload: Payload)

  /** One outbound call as the transport receives it; `cookie` is present exactly when the
      cookie-carrying form of the call is used. */
  datatype TransportCall =
    | PutCall(url: string, headers: Headers, body: string, cookie: Optional<Cookie>)
    | GetBytesCall(url: string, headers: Headers, cookie: Optional<Cookie>)

  /** The transport either replies or raises an error with a message. */
  datatype TransportOutcome = Replied(reply: HttpReply) | Raised(message: string)

  /** The HTTP library: a call in, an outcome out. */
  type Transport = TransportCall -> TransportOutcome

  /** The result of a call that was issued: the reply, or the transport's message wrapped
      as a request failure. */
  function Wrapped(outcome: TransportOutcome): (r: Result<HttpReply>)
    ensures r.Ok? <==> outcome.Replied?
    ensures outcome.Replied? ==> r.value == outcome.reply
    ensures outcome.Raised? ==> r.error == RequestFailure(outcome.message)
  {
    match outcome
    case Replied(reply) => Ok(reply)
    case Raised(message) => Fail(RequestFailure(message))
  }

  /** PutJsonZosmfRequest.setStandardHeaders applied to a header map. */
  function WithJsonHeaders(h: Headers): (r: Headers)
    ensures r.Keys == h.Keys + {CONTENT_TYPE_KEY, X_CSRF_ZOSMF_HEADER_KEY}
    ensures r[CONTENT_TYPE_KEY] == JSON_CONTENT_TYPE
    ensures r[X_CSRF_ZOSMF_HEADER_KEY] == X_CSRF_ZOSMF_HEADER_VALUE
    ensures forall k :: k in h && k != CONTENT_TYPE_KEY && k != X_CSRF_ZOSMF_HEADER_KEY ==> r[k] == h[k]
  {
    h[CONTENT_TYPE_KEY := JSON_CONTENT_TYPE][X_CSRF_ZOSMF_HEADER_KEY := X_CSRF_ZOSMF_HEADER_VALUE]
  }

  lemma WithJsonHeadersIdempotent(h: Headers)
    ensures WithJsonHeaders(WithJsonHeaders(h)) == WithJsonHeaders(h)
  {
  }

  /** Starting from no headers (as for a cookie connection), the PUT carries exactly the CSRF
      and content-type entries and no Authorization entry. */
  lemma JsonHeadersFromEmpty()
    ensures WithJsonHeaders(map[]) == map[X_CSRF_ZOSMF_HEADER_KEY := "true", CONTENT_TYPE_KEY := "application/json"]
    ensures AUTHORIZATION_KEY !in WithJsonHeaders(map[])
  {
  }

  /** GetStreamZosmfRequest.setStandardHeaders applied to a header map, given the encoded
      credentials of the connection. */
  function WithStreamHeaders(h: Headers, credentials: string): (r: Headers)
    ensures r.Keys == h.Keys + {AUTHORIZATION_KEY, CONTENT_TYPE_KEY, X_CSRF_ZOSMF_HEADER_KEY}
    ensures |r[AUTHORIZATION_KEY]| == |BASIC_PREFIX| + |credentials|
    ensures r[AUTHORIZATION_KEY][..|BASIC_PREFIX|] == BASIC_PREFIX
    ensures r[AUTHORIZATION_KEY][|BASIC_PREFIX|..] == credentials
    ensures r[CONTENT_TYPE_KEY] == JSON_CONTENT_TYPE
    ensures r[X_CSRF_ZOSMF_HEADER_KEY] == X_CSRF_ZOSMF_HEADER_VALUE
    ensures forall k :: k in h && k != AUTHORIZATION_KEY && k != CONTENT_TYPE_KEY && k != X_CSRF_ZOSMF_HEADER_KEY ==>
              r[k] == h[k]
  {
    h[AUTHORIZATION_KEY := BASIC_PREFIX + credentials][CONTENT_TYPE_KEY := JSON_CONTENT_TYPE]
     [X_CSRF_ZOSMF_HEADER_KEY := X_CSRF_ZOSMF_HEADER_VALUE]
  }

  /** The stream headers are the JSON headers plus the Basic Authorization entry. */
  lemma StreamHeadersAddAuthorization(h: Headers, credentials: string)
    ensures WithStreamHeaders(h, credentials) == WithJsonHeaders(h)[AUTHORIZATION_KEY := BASIC_PREFIX + credentials]
  {
  }

  lemma WithStreamHeadersIdempotent(h: Headers, credentials: string)
    ensures WithStreamHeaders(WithStreamHeaders(h, credentials), credentials) == WithStreamHeaders(h, credentials)
  {
  }

  class PutJsonZosmfRequest {
    var url: Nullable<string>
    var headers: Headers
    var token: Nullable<Cookie>
    var body: Nullable<string>

    /** A new request. The base request class, which is not part of this model, decides the
        initial header map and the token; both are parameters here. No url or body is set yet. */
    constructor (token: Nullable<Cookie>, initialHeaders: Headers)
      ensures url == Null && body == Null
      ensures headers == initialHeaders && this.token == token
    {
      url := Null;
      headers := initialHeaders;
      this.token := token;
      body := Null;
    }

    method SetBody(body: Nullable<string>)
      modifies this`body
      ensures this.body == body
    {
      this.body := body;
    }

    method SetStandardHeaders()
      modifies this`headers
      ensures headers == WithJsonHeaders(old(headers))
    {
      headers := headers[CONTENT_TYPE_KEY := JSON_CONTENT_TYPE];
      headers := headers[X_CSRF_ZOSMF_HEADER_KEY := X_CSRF_ZOSMF_HEADER_VALUE];
    }

    /** PutJsonZosmfRequest.executeRequest: url first, then body, then exactly one call,
        carrying the cookie exactly when a token is set. `issued` is the call made, if any. */
    method ExecuteRequest(transport: Transport) returns (r: Result<HttpReply>, issued: Optional<TransportCall>)
      ensures issued.Present? <==> url.NonNull? && body.NonNull?
      ensures url.Null? ==> r == Fail(NullParameter(URL_NULL))
      ensures url.NonNull? && body.Null? ==> r == Fail(NullParameter(BODY_NULL))
      ensures issued.Present? ==>
                && issued.value.PutCall?
                && issued.value.url == url.value && issued.value.body == body.value
                && issued.value.headers == headers
                && (issued.value.cookie.Present? <==> token.NonNull?)
                && (token.NonNull? ==> issued.value.cookie.value == token.value)
                && r == Wrapped(transport(issued.value))
    {
      if url.Null? {
        return Fail(NullParameter(URL_NULL)), Empty;
      }
      if body.Null? {
        return Fail(NullParameter(BODY_NULL)), Empty;
      }
      var call := if token.NonNull? then PutCall(url.value, headers, body.value, Present(token.value))
                  else PutCall(url.value, headers, body.value, Empty);
      r := Wrapped(transport(call));
      issued := Present(call);
    }
  }

  class GetStreamZosmfRequest {
    var url: Nullable<string>
    var headers: Headers
    var cookie: Nullable<Cookie>

    /** A new request. The base request class, which is not part of this model, decides the
        initial header map and the cookie; both are parameters here. No url is set yet. */
    constructor (cookie: Nullable<Cookie>, initialHeaders: Headers)
      ensures url == Null
      ensures headers == initialHeaders && this.cookie == cookie
    {
      url := Null;
      headers := initialHeaders;
      this.cookie := cookie;
    }

    /** A GET carries no body: setting one always fails and changes nothing. */
    method SetBody<T>(body: T) returns (r: Result<()>)
      ensures r == Fail(IllegalState(BODY_INVALID))
    {
      r := Fail(IllegalState(BODY_INVALID));
    }

    method SetStandardHeaders(credentials: string)
      modifies this`headers
      ensures headers == WithStreamHeaders(old(headers), credentials)
    {
      headers := headers[AUTHORIZATION_KEY := BASIC_PREFIX + credentials];
      headers := headers[CONTENT_TYPE_KEY := JSON_CONTENT_TYPE];
      headers := headers[X_CSRF_ZOSMF_HEADER_KEY := X_CSRF_ZOSMF_HEADER_VALUE];
    }

    /** GetStreamZosmfRequest.executeRequest: the url is the only precondition; then exactly one
        call, carrying the cookie exactly when one is set. */
    method ExecuteRequest(transport: Transport) returns (r: Result<HttpReply>, issued: Optional<TransportCall>)
      ensures issued.Present? <==> url.NonNull?
      ensures url.Null? ==> r == Fail(NullParameter(URL_NULL))
      ensures issued.Present? ==>
                && issued.value.GetBytesCall?
                && issued.value.url == url.value
                && issued.value.headers == headers
                && (issued.value.cookie.Present? <==> cookie.NonNull?)
                && (cookie.NonNull? ==> issued.value.cookie.value == cookie.value)
                && r == Wrapped(transport(issued.value))
    {
      if url.Null? {
        return Fail(NullParameter(URL_NULL)), Empty;
      }
      var call := if cookie.NonNull? then GetBytesCall(url.value, headers, Present(cookie.value))
                  else GetBytesCall(url.value, headers, Empty);
      r := Wrapped(transport(call));
      issued := Present(call);
    }
  }
}

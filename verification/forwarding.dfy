/**
  How `MainHandler._handle_request` turns an accepted inbound request into
  the outbound one, and how the end of the fetch becomes the client's reply.
 */
module Forwarding {
  import opened Basics
  import opened Text
  import opened Http
  import opened ProxyConfig

  /** The `port` slot of the URL template is always filled with `''`. */
  const PORT: string := ""

  const POST: string := "POST"

  /** The upstream URL `{proto}://{host}{port}{path}{query}`: the inbound
      scheme, the origin, and the inbound path and query each normalised to
      start with exactly one `/` or `?` (or left empty when empty). */
  function Url(protocol: string, origin: string, path: string, query: string): (r: string)
    ensures protocol + "://" + origin <= r
    ensures path == [] && query == [] ==> r == protocol + "://" + origin
    ensures |r| <= |protocol| + 3 + |origin| + |path| + |query| + 2
  {
    protocol + "://" + origin + PORT + LeadWith(path, '/') + LeadWith(query, '?')
  }

  /** An inbound path that already starts with a single `/` and a query that
      does not start with `?` reach the origin exactly as they came. */
  lemma UrlMirrorsInbound(protocol: string, origin: string, path: string, query: string)
    requires path != [] && path[0] == '/' && (|path| == 1 || path[1] != '/')
    requires query == [] || query[0] != '?'
    ensures Url(protocol, origin, path, query) ==
              protocol + "://" + origin + path + (if query == [] then [] else "?" + query)
  {
    var authority := protocol + "://" + origin;
    assert authority + PORT == authority;
    LeadWithNormalised(path, '/');
    if query != [] {
      LeadWithUnprefixed(query, '?');
    }
  }

  /** Rebuilding the URL from an already rebuilt path and query changes
      nothing. */
  lemma UrlStable(protocol: string, origin: string, path: string, query: string)
    ensures Url(protocol, origin, LeadWith(path, '/'), LeadWith(query, '?')) ==
              Url(protocol, origin, path, query)
  {
    LeadWithIdempotent(path, '/');
    LeadWithIdempotent(query, '?');
  }

  /** The outbound headers: the inbound map with `Host` overwritten by the
      origin and, when the host's section has the `add_forwarded_for` key
      (whatever its value), `X-Forwarded-For` overwritten by the client
      address; every other header is carried over unchanged. */
  function ForwardHeaders(headers: Headers, origin: string, section: Section, remoteIp: string): (r: Headers)
    ensures HOST_HEADER in r && r[HOST_HEADER] == origin
    ensures ADD_FORWARDED_FOR_KEY in section ==>
              FORWARDED_FOR_HEADER in r && r[FORWARDED_FOR_HEADER] == remoteIp
    ensures ADD_FORWARDED_FOR_KEY !in section ==>
              (FORWARDED_FOR_HEADER in r <==> FORWARDED_FOR_HEADER in headers) &&
              (FORWARDED_FOR_HEADER in headers ==> r[FORWARDED_FOR_HEADER] == headers[FORWARDED_FOR_HEADER])
    ensures forall k :: k != HOST_HEADER && k != FORWARDED_FOR_HEADER ==>
              (k in r <==> k in headers) && (k in r ==> r[k] == headers[k])
    ensures r.Keys == headers.Keys + {HOST_HEADER} +
              (if ADD_FORWARDED_FOR_KEY in section then {FORWARDED_FOR_HEADER} else {})
  {
    var withHost := headers[HOST_HEADER := origin];
    if ADD_FORWARDED_FOR_KEY in section then withHost[FORWARDED_FOR_HEADER := remoteIp] else withHost
  }

  /** `body=self.request.body if self.request.method == "POST" else None`:
      only a POST carries its body upstream; PUT and every other method go
      without one. */
  function ForwardBody(verb: string, body: Bytes): (r: Option<Bytes>)
    ensures r.Some? <==> verb == POST
    ensures r.Some? ==> r.value == body
  {
    if verb == POST then Some(body) else None
  }

  /** The request handed to the HTTP client for an accepted inbound request
      routed to `origin` under `section`: the same method, the rebuilt URL,
      the inbound headers with `Host` (and, when the section asks for it,
      `X-Forwarded-For`) overwritten, and the inbound body for a POST only. */
  function Forward(req: Inbound, origin: string, section: Section): (out: Outbound)
    ensures out.verb == req.verb
    ensures out.url == Url(req.protocol, origin, req.path, req.query)
    ensures out.headers == ForwardHeaders(req.headers, origin, section, req.remoteIp)
    ensures HOST_HEADER in out.headers && out.headers[HOST_HEADER] == origin
    ensures ADD_FORWARDED_FOR_KEY in section ==>
              FORWARDED_FOR_HEADER in out.headers && out.headers[FORWARDED_FOR_HEADER] == req.remoteIp
    ensures out.body == ForwardBody(req.verb, req.body)
    ensures out.body.Some? <==> req.verb == POST
    ensures out.body.Some? ==> out.body.value == req.body
  {
    Outbound(
      Url(req.protocol, origin, req.path, req.query),
      req.verb,
      ForwardBody(req.verb, req.body),
      ForwardHeaders(req.headers, origin, section, req.remoteIp))
  }

  /** The reply for the end of the fetch: exactly one response is sent. A
      fetched body is written as it is, with Tornado's default status (the
      origin's own status is not passed on); `HTTPClientError` is answered
      with its response code; any other failure with 500. */
  function Relay(outcome: FetchOutcome): (r: Reply)
    ensures r != NotSent
    ensures r.Written? <==> outcome.Fetched?
    ensures outcome.Fetched? ==> r.body == outcome.body && r.Status() == Some(DEFAULT_STATUS)
    ensures outcome.ClientError? ==> r.Status() == Some(outcome.code)
    ensures outcome.OtherFailure? ==> r.Status() == Some(DEFAULT_ERROR_STATUS)
  {
    match outcome
    case Fetched(_, body) => Written(body)
    case ClientError(code) => ErrorSent(code)
    case OtherFailure => ErrorSent(DEFAULT_ERROR_STATUS)
  }
}

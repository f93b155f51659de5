/**
  The HTTP values the proxy handles, as plain data: the inbound request as
  the handler sees it, the outbound request it hands to the HTTP client, the
  three ways that fetch can end, and what is sent back to the client.
 */
module Http {
  import opened Basics

  newtype byte = x: int | 0 <= x < 256

  type Bytes = seq<byte>

  /** Header names are taken as already normalised; a name maps to one value. */
  type Headers = map<string, string>

  const HOST_HEADER: string := "Host"
  const FORWARDED_FOR_HEADER: string := "X-Forwarded-For"

  /** The status Tornado answers with when nothing sets another one. */
  const DEFAULT_STATUS: int := 200

  /** The status `send_error()` uses when it is given none. */
  const DEFAULT_ERROR_STATUS: int := 500

  /** What the handler reads from Tornado's request object. */
  datatype Inbound = Inbound(
    verb: string,
    protocol: string,
    path: string,
    query: string,
    remoteIp: string,
    body: Bytes,
    headers: Headers)

  /** The request handed to the asynchronous HTTP client; `body` is `None`
      where the source passes `body=None`. */
  datatype Outbound = Outbound(
    url: string,
    verb: string,
    body: Option<Bytes>,
    headers: Headers)

  /** How the fetch of an outbound request ends: the origin answered (with a
      status the client library did not treat as an error), the client library
      raised `HTTPClientError` carrying a response code, or anything else was
      raised (connection refused, DNS failure, I/O error). */
  datatype FetchOutcome =
    | Fetched(status: int, body: Bytes)
    | ClientError(code: int)
    | OtherFailure

  /** What the handler has sent to the client so far: nothing, a body written
      with the default status, or an error page with a status. */
  datatype Reply =
    | NotSent
    | Written(body: Bytes)
    | ErrorSent(code: int)
  {
    /** The status line the client sees. */
    function Status(): (s: Option<int>)
      ensures s.None? <==> NotSent?
    {
      match this
      case NotSent => None
      case Written(_) => Some(DEFAULT_STATUS)
      case ErrorSent(code) => Some(code)
    }
  }
}

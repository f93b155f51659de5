/**
  The routing decision `MainHandler.prepare` makes before any forwarding:
  the `Host` header picks a configuration section, and the section's
  comma-separated `allowed_methods` decides whether the method may pass.
 */
module Routing {
  import opened Text
  import opened ProxyConfig

  const NOT_FOUND: int := 404
  const FORBIDDEN: int := 403

  /** The outcome of routing: the request is answered at once with an error
      status, or it goes on to the origin named by the host's section. */
  datatype Route = Reject(code: int) | Accept(origin: string)

  /** `verb in allowed.split(',')`: the method must equal one of the
      comma-separated tokens exactly; tokens are not trimmed. */
  predicate MethodAllowed(verb: string, allowed: string)
    ensures MethodAllowed(verb, allowed) ==> ',' !in verb
    ensures ',' !in allowed ==> (MethodAllowed(verb, allowed) <==> verb == allowed)
  {
    verb in Split(allowed, ',')
  }

  /** The decision of `prepare` for the `Host` value `host` and method `verb`:
      the host is looked up first, the method second. */
  function RouteRequest(config: Config, host: string, verb: string): (r: Route)
    requires ConfigValid(config)
    ensures r.Reject? ==> r.code == NOT_FOUND || r.code == FORBIDDEN
    ensures r == Reject(NOT_FOUND) <==> host !in config
    ensures r == Reject(FORBIDDEN) <==> host in config && !MethodAllowed(verb, config[host][ALLOWED_METHODS_KEY])
    ensures r.Accept? ==> host in config && r.origin == config[host][ORIGIN_KEY]
  {
    if host !in config then Reject(NOT_FOUND)
    else if !MethodAllowed(verb, config[host][ALLOWED_METHODS_KEY]) then Reject(FORBIDDEN)
    else Accept(config[host][ORIGIN_KEY])
  }

  /** A host without a section is answered 404 whatever the method, and no
      origin is resolved. */
  lemma UnknownHostNotFound(config: Config, host: string, verb: string)
    requires ConfigValid(config)
    requires host !in config
    ensures RouteRequest(config, host, verb) == Reject(NOT_FOUND)
  {
  }

  /** For a known host the answer is never 404: it is 403 exactly when the
      method is not one of the section's tokens, and otherwise the request is
      accepted for the section's origin. */
  lemma KnownHostDecision(config: Config, host: string, verb: string)
    requires ConfigValid(config)
    requires host in config
    ensures RouteRequest(config, host, verb) != Reject(NOT_FOUND)
    ensures RouteRequest(config, host, verb) == Reject(FORBIDDEN) <==>
              !MethodAllowed(verb, config[host][ALLOWED_METHODS_KEY])
    ensures RouteRequest(config, host, verb).Accept? <==>
              MethodAllowed(verb, config[host][ALLOWED_METHODS_KEY])
    ensures RouteRequest(config, host, verb).Accept? ==>
              RouteRequest(config, host, verb).origin == config[host][ORIGIN_KEY]
  {
  }

  /** When `allowed_methods` is the comma-join of a non-empty list of
      comma-free tokens, a method is admitted exactly when it is one of those
      tokens. */
  lemma {:induction false} MethodAllowedTokens(verb: string, tokens: seq<string>)
    requires tokens != []
    requires forall t :: t in tokens ==> ',' !in t
    ensures MethodAllowed(verb, Join(tokens, ',')) <==> verb in tokens
  {
    SplitJoin(tokens, ',');
  }

  /** A method that contains a comma is never admitted. */
  lemma CommaNeverAllowed(verb: string, allowed: string)
    requires ',' in verb
    ensures !MethodAllowed(verb, allowed)
  {
  }

  /** Routing by tokens: for a host whose `allowed_methods` joins `tokens`,
      the request is accepted (for the section's origin) exactly when the
      method is a token, and refused with 403 exactly when it is not. */
  lemma RouteByTokens(config: Config, host: string, verb: string, tokens: seq<string>)
    requires ConfigValid(config)
    requires host in config && config[host][ALLOWED_METHODS_KEY] == Join(tokens, ',')
    requires tokens != []
    requires forall t :: t in tokens ==> ',' !in t
    ensures RouteRequest(config, host, verb) == Accept(config[host][ORIGIN_KEY]) <==> verb in tokens
    ensures RouteRequest(config, host, verb) == Reject(FORBIDDEN) <==> verb !in tokens
  {
    MethodAllowedTokens(verb, tokens);
  }

  /** Tokens are compared untrimmed: in `"A, B"` the second token is `" B"`,
      so `"GET, POST"` admits `" POST"` but not `"POST"`. */
  lemma {:induction false} TokensNotTrimmed(first: string, verb: string)
    requires ',' !in first && ',' !in verb && first != verb
    ensures !MethodAllowed(verb, first + ", " + verb)
    ensures MethodAllowed(" " + verb, first + ", " + verb)
  {
    var tokens := [first, " " + verb];
    assert tokens[1..] == [" " + verb];
    assert Join(tokens, ',') == first + ", " + verb;
    assert forall t :: t in tokens ==> ',' !in t;
    SplitJoin(tokens, ',');
    assert |" " + verb| != |verb|;
  }
}

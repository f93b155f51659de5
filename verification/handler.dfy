/**
  `MainHandler`: one handler object per inbound request. `Prepare` records
  the host and either sends an error (which ends the request) or records the
  origin; `HandleRequest` rewrites the request's headers in place, builds the
  outbound request and sends the reply for the fetch's outcome. The five verb
  handlers of the source all call `HandleRequest`, so they are one path here.

  The network is a parameter: `fetch` gives, for each outbound request, how
  the asynchronous fetch of it ends.
 */
module Handler {
  import opened Basics
  import opened Http
  import opened ProxyConfig
  import opened Routing
  import opened Forwarding

  /** What one inbound request leads to: the request sent to an origin, if
      any, and the reply the client receives. */
  datatype Trace = Trace(sent: Option<Outbound>, reply: Reply)

  const METHOD_NOT_ALLOWED: int := 405

  /** The methods Tornado lets reach a handler at all; any other method is
      answered 405 before `prepare` runs. */
  const SUPPORTED_METHODS: set<string> := {"GET", "HEAD", "POST", "DELETE", "PATCH", "PUT", "OPTIONS"}

  /** The methods `MainHandler` defines a handler for; for the other
      supported ones Tornado's inherited handler answers 405. */
  const HANDLED_VERBS: set<string> := {"GET", "POST", "PUT", "DELETE", "HEAD"}

  /** The whole life of one inbound request, as a value: an unsupported
      method is refused before routing; otherwise route it, answer a
      rejection at once, refuse a method without a handler, or forward it
      and relay the outcome. */
  function Serve(config: Config, req: Inbound, fetch: Outbound -> FetchOutcome): (t: Trace)
    requires ConfigValid(config)
    requires HOST_HEADER in req.headers
    ensures t.reply != NotSent
    ensures t.sent.None? ==> t.reply.ErrorSent?
    ensures t.sent.Some? ==> t.sent.value.verb == req.verb && t.reply == Relay(fetch(t.sent.value))
  {
    if req.verb !in SUPPORTED_METHODS then Trace(None, ErrorSent(METHOD_NOT_ALLOWED))
    else
      var host := req.headers[HOST_HEADER];
      match RouteRequest(config, host, req.verb)
      case Reject(code) => Trace(None, ErrorSent(code))
      case Accept(origin) =>
        if req.verb !in HANDLED_VERBS then Trace(None, ErrorSent(METHOD_NOT_ALLOWED))
        else
          var out := Forward(req, origin, config[host]);
          Trace(Some(out), Relay(fetch(out)))
  }

  class MainHandler {
    const config: Config
    var request: Inbound
    var host: Option<string>
    var reverseHost: Option<string>
    var reply: Reply

    /** `initialize`: the handler is given the validated configuration. */
    constructor (config: Config, request: Inbound)
      requires ConfigValid(config)
      ensures this.config == config && this.request == request
      ensures host == None && reverseHost == None && reply == NotSent
    {
      this.config := config;
      this.request := request;
      host := None;
      reverseHost := None;
      reply := NotSent;
    }

    /** Routing has let the request through and nothing has been sent yet. */
    ghost predicate Accepted()
      reads this
    {
      && ConfigValid(config)
      && host.Some? && host.value in config
      && reverseHost == Some(config[host.value][ORIGIN_KEY])
      && reply == NotSent
    }

    /** `prepare`: read the `Host` header; answer 404 for a host without a
        section and 403 for a method its section does not allow; otherwise
        record the section's origin. */
    method Prepare()
      requires ConfigValid(config)
      requires HOST_HEADER in request.headers
      requires reply == NotSent
      modifies this
      ensures request == old(request)
      ensures host == Some(request.headers[HOST_HEADER])
      ensures match RouteRequest(config, request.headers[HOST_HEADER], request.verb)
              case Reject(code) => reply == ErrorSent(code) && reverseHost == old(reverseHost)
              case Accept(origin) => reply == NotSent && reverseHost == Some(origin) && Accepted()
    {
      var h := request.headers[HOST_HEADER];
      host := Some(h);
      if h !in config {
        reply := ErrorSent(NOT_FOUND);
        return;
      }
      if !MethodAllowed(request.verb, config[h][ALLOWED_METHODS_KEY]) {
        reply := ErrorSent(FORBIDDEN);
        return;
      }
      reverseHost := Some(config[h][ORIGIN_KEY]);
    }

    /** `_handle_request`: overwrite `Host` (and, when configured,
        `X-Forwarded-For`) in the request's own header map, build the
        outbound request from it, fetch, and send exactly one reply. */
    method HandleRequest(fetch: Outbound -> FetchOutcome) returns (sent: Outbound)
      requires Accepted()
      modifies this
      ensures host == old(host) && reverseHost == old(reverseHost)
      ensures request == old(request).(headers := ForwardHeaders(
                old(request).headers, reverseHost.value, config[host.value], old(request).remoteIp))
      ensures sent == Forward(old(request), reverseHost.value, config[host.value])
      ensures reply == Relay(fetch(sent))
    {
      var inbound := request;
      var origin := reverseHost.value;
      var section := config[host.value];
      request := request.(headers := request.headers[HOST_HEADER := origin]);
      var url := Url(request.protocol, origin, request.path, request.query);
      if ADD_FORWARDED_FOR_KEY in section {
        request := request.(headers := request.headers[FORWARDED_FOR_HEADER := request.remoteIp]);
      }
      sent := Outbound(url, request.verb, ForwardBody(request.verb, request.body), request.headers);
      assert request.headers == ForwardHeaders(inbound.headers, origin, section, inbound.remoteIp);
      assert sent == Forward(old(request), reverseHost.value, config[host.value]);
      var outcome := fetch(sent);
      match outcome {
        case Fetched(_, body) =>
          reply := Written(body);
        case ClientError(code) =>
          reply := ErrorSent(code);
        case OtherFailure =>
          reply := ErrorSent(DEFAULT_ERROR_STATUS);
      }
    }

    /** What Tornado does with a fresh handler: refuse a method it does
        not support, run `prepare`, and when `prepare` did not finish the
        request call the verb's handler, which is `HandleRequest` for the
        five verbs the class defines and an inherited 405 for the rest. */
    method Run(fetch: Outbound -> FetchOutcome) returns (sent: Option<Outbound>)
      requires ConfigValid(config)
      requires HOST_HEADER in request.headers
      requires reply == NotSent
      modifies this
      ensures Trace(sent, reply) == Serve(config, old(request), fetch)
    {
      if request.verb !in SUPPORTED_METHODS {
        reply := ErrorSent(METHOD_NOT_ALLOWED);
        return None;
      }
      Prepare();
      if reply != NotSent {
        return None;
      }
      if request.verb !in HANDLED_VERBS {
        reply := ErrorSent(METHOD_NOT_ALLOWED);
        return None;
      }
      var out := HandleRequest(fetch);
      sent := Some(out);
    }
  }

  /** A host without a section gets 404 whatever the supported method and
      the body (an unsupported method gets 405 first), and nothing is sent to
      any origin. */
  lemma ServeUnknownHost(config: Config, req: Inbound, fetch: Outbound -> FetchOutcome)
    requires ConfigValid(config)
    requires HOST_HEADER in req.headers && req.headers[HOST_HEADER] !in config
    ensures Serve(config, req, fetch) ==
              Trace(None, ErrorSent(if req.verb in SUPPORTED_METHODS then NOT_FOUND else METHOD_NOT_ALLOWED))
  {
  }

  /** A method the class has no handler for is never forwarded: it gets
      the routing rejection when `prepare` refuses it, and 405 otherwise. */
  lemma ServeUnhandledVerb(config: Config, req: Inbound, fetch: Outbound -> FetchOutcome)
    requires ConfigValid(config)
    requires HOST_HEADER in req.headers && req.verb !in HANDLED_VERBS
    ensures Serve(config, req, fetch).sent == None
    ensures var route := RouteRequest(config, req.headers[HOST_HEADER], req.verb);
            Serve(config, req, fetch).reply ==
              ErrorSent(if req.verb in SUPPORTED_METHODS && route.Reject? then route.code else METHOD_NOT_ALLOWED)
  {
  }

  /** Every request gets exactly one reply; it is forwarded exactly when it
      has a handler and routing accepts it, and then to the section's origin
      with the same method, and the reply is the relayed fetch outcome. */
  lemma ServeForwardsOnlyAccepted(config: Config, req: Inbound, fetch: Outbound -> FetchOutcome)
    requires ConfigValid(config)
    requires HOST_HEADER in req.headers
    ensures Serve(config, req, fetch).reply != NotSent
    ensures Serve(config, req, fetch).sent.Some? <==>
              req.verb in HANDLED_VERBS && RouteRequest(config, req.headers[HOST_HEADER], req.verb).Accept?
    ensures Serve(config, req, fetch).sent.Some? ==>
              var out := Serve(config, req, fetch).sent.value;
              && out.verb == req.verb
              && HOST_HEADER in out.headers
              && out.headers[HOST_HEADER] == config[req.headers[HOST_HEADER]][ORIGIN_KEY]
              && out == Forward(req, config[req.headers[HOST_HEADER]][ORIGIN_KEY], config[req.headers[HOST_HEADER]])
              && Serve(config, req, fetch).reply == Relay(fetch(out))
  {
  }

  /** The configuration of the worked examples: one host, GET only. */
  function ExampleConfig(): Config {
    map["a.example" := map[ORIGIN_KEY := "a-origin:9000", ALLOWED_METHODS_KEY := "GET"]]
  }

  /** The example's upstream URL. */
  lemma ExampleUrl()
    ensures Url("http", "a-origin:9000", "/x", "y=1") == "http://a-origin:9000/x?y=1"
  {
    UrlMirrorsInbound("http", "a-origin:9000", "/x", "y=1");
    ExampleUrlText();
  }

  /** The example's URL, spelled out piece by piece. */
  lemma ExampleUrlText()
    ensures "http" + "://" + "a-origin:9000" + "/x" + "?" + "y=1" == "http://a-origin:9000/x?y=1"
  {
  }

  /** The example's host admits GET and nothing else. */
  lemma ExampleRoute(verb: string)
    ensures ConfigValid(ExampleConfig())
    ensures RouteRequest(ExampleConfig(), "a.example", verb) ==
              if verb == "GET" then Accept("a-origin:9000") else Reject(FORBIDDEN)
  {
    Text.SplitSeparatorFree("GET", ',');
  }

  /** `GET /x?y=1` for `a.example` goes to `http://a-origin:9000/x?y=1`, and
      the origin's `ok` reaches the client with status 200. */
  lemma ExampleForwarded(req: Inbound, fetch: Outbound -> FetchOutcome)
    requires req.verb == "GET" && req.protocol == "http" && req.path == "/x" && req.query == "y=1"
    requires req.headers == map[HOST_HEADER := "a.example"]
    requires forall out :: fetch(out) == Fetched(200, [111, 107])
    ensures Serve(ExampleConfig(), req, fetch).sent.Some?
    ensures Serve(ExampleConfig(), req, fetch).sent.value.url == "http://a-origin:9000/x?y=1"
    ensures Serve(ExampleConfig(), req, fetch).reply == Written([111, 107])
  {
    var config := ExampleConfig();
    ExampleRoute("GET");
    var out := Forward(req, "a-origin:9000", config["a.example"]);
    assert Serve(config, req, fetch) == Trace(Some(out), Relay(fetch(out)));
    ExampleUrl();
  }

  /** `POST /x` for `a.example` is answered 403 and nothing is forwarded. */
  lemma ExampleForbidden(req: Inbound, fetch: Outbound -> FetchOutcome)
    requires req.verb == "POST" && req.headers == map[HOST_HEADER := "a.example"]
    ensures Serve(ExampleConfig(), req, fetch) == Trace(None, ErrorSent(FORBIDDEN))
  {
    ExampleRoute("POST");
  }

  /** An unreachable origin (any failure other than `HTTPClientError`) is
      answered 500. */
  lemma ExampleUnreachable(req: Inbound, fetch: Outbound -> FetchOutcome)
    requires req.verb == "GET" && req.headers == map[HOST_HEADER := "a.example"]
    requires forall out :: fetch(out) == OtherFailure
    ensures Serve(ExampleConfig(), req, fetch).reply.Status() == Some(DEFAULT_ERROR_STATUS)
  {
    ExampleRoute("GET");
  }

  /** A host whose `allowed_methods` is one comma-free token accepts that
      token. */
  lemma SingleTokenRoute(config: Config, host: string, verb: string)
    requires ConfigValid(config)
    requires host in config && config[host][ALLOWED_METHODS_KEY] == verb && ',' !in verb
    ensures RouteRequest(config, host, verb) == Accept(config[host][ORIGIN_KEY])
  {
    Text.SplitSeparatorFree(verb, ',');
  }

  /** A host whose section allows `PATCH` only. */
  function PatchConfig(): Config {
    map["p.example" := map[ORIGIN_KEY := "p-origin", ALLOWED_METHODS_KEY := "PATCH"]]
  }

  /** Routing accepts `PATCH` for that host. */
  lemma PatchRoute()
    ensures ConfigValid(PatchConfig())
    ensures RouteRequest(PatchConfig(), "p.example", "PATCH") == Accept("p-origin")
  {
    var config := PatchConfig();
    assert ConfigValid(config);
    SingleTokenRoute(config, "p.example", "PATCH");
  }

  /** `PATCH` is a method Tornado supports but the class has no handler for. */
  lemma PatchUnhandled()
    ensures "PATCH" in SUPPORTED_METHODS && "PATCH" !in HANDLED_VERBS
  {
    // Every handled verb differs from `PATCH` in length.
    assert |"PATCH"| == 5;
    assert |"GET"| == 3 && |"POST"| == 4 && |"PUT"| == 3 && |"DELETE"| == 6 && |"HEAD"| == 4;
  }

  /** A host that allows `PATCH` still never forwards it: the class has no
      `patch` handler, so the accepted request is answered 405. */
  lemma ExamplePatchRefused(req: Inbound, fetch: Outbound -> FetchOutcome)
    requires req.verb == "PATCH" && req.headers == map[HOST_HEADER := "p.example"]
    ensures ConfigValid(PatchConfig())
    ensures Serve(PatchConfig(), req, fetch) == Trace(None, ErrorSent(METHOD_NOT_ALLOWED))
  {
    PatchRoute();
    PatchUnhandled();
  }
}

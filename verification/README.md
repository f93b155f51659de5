# revproxytoy, modelled in Dafny

This project models `reverse_proxy.py`, a small host-based HTTP reverse proxy
built on Tornado. Each inbound request is handled in three steps:

- **Routing** (`MainHandler.prepare`). The `Host` header selects a
  configuration section. A host without a section is answered 404. A method
  that is not one of the section's comma-separated `allowed_methods` tokens
  is answered 403. Otherwise the section's `origin` is recorded.
- **Forwarding** (`MainHandler._handle_request`). The URL is rebuilt as
  `proto://origin` + path + query. `Host` is overwritten in the request's
  header map. `X-Forwarded-For` is overwritten too when the section has an
  `add_forwarded_for` key. The request is sent with the same method, and
  with its body only for `POST`.
- **Relaying.** How the fetch ends decides the single reply: the fetched body,
  the `HTTPClientError`'s code, or 500.

Around these steps, Tornado answers 405 to a method outside its supported
set (GET, HEAD, POST, DELETE, PATCH, PUT, OPTIONS) before `prepare` runs.
The class defines handlers only for GET, POST, PUT, DELETE and HEAD. A PATCH
or OPTIONS request that routing accepts therefore reaches Tornado's
inherited handler and is answered 405 without being forwarded.

At start-up, `load_config` refuses a configuration that has no sections, or a
section lacking `origin` or `allowed_methods`.

Files and modules:

- `basics.dfy` (`Basics`): `Option` and `Result`.
- `text.dfy` (`Text`): Python's `str.split` and `str.join` on one character,
  `str.lstrip` of one character, and the `c + s.lstrip(c) if s else ''`
  normalisation (`LeadWith`). Split and join are proved inverse in both
  directions.
- `http.dfy` (`Http`): the inbound request, the outbound request, the
  three-way fetch outcome and the reply, all as plain values.
- `config.dfy` (`ProxyConfig`): the parsed configuration, and `LoadConfig`,
  the validation loop with early exit, proved against `Validate`.
- `routing.dfy` (`Routing`): the routing decision and the method-token test.
- `forwarding.dfy` (`Forwarding`): URL, headers, body and reply.
- `handler.dfy` (`Handler`): the `MainHandler` class. Its methods update the
  handler's fields and the request's header map in place. They are proved
  against `Serve`, the whole request lifecycle written as a function. The
  file ends with worked examples.

The network is a parameter. `fetch: Outbound -> FetchOutcome` says how the
fetch of each outbound request ends.

In these details the model follows the code, which a reader might expect to behave otherwise:

- The handler writes a successfully fetched body with Tornado's default
  status 200. The origin's own status and headers are not passed on. Tornado
  can still change that reply after the handler writes it; see the
  `Forwarding.Relay` line under "Left out".
- `load_config` checks only that `origin` and `allowed_methods` are present.
  Empty values are accepted (`EmptyValuesAccepted`).
- An empty inbound path stays empty in the URL; it is not turned into `/`.
- Every leading `?` on the query is stripped, and then exactly one `?` is
  put back (`??a` becomes `?a`).
- Only `POST` carries a body upstream; `PUT` does not.
- `PATCH` and `OPTIONS` are never forwarded, even for a host whose
  `allowed_methods` lists them (`ServeUnhandledVerb`, `ExamplePatchRefused`).
- The `Host` value must equal a section name exactly. Method tokens are not
  trimmed, so `"GET, POST"` does not admit `POST`.

## Model

| member | source | states |
|---|---|---|
| `Text.Split` | reverse_proxy.py:22 | `split(',')` yields one more piece than there are separators, no piece contains the separator, and a string without the separator is one piece |
| `Text.JoinSplit` | reverse_proxy.py:22 | joining the pieces of a split with the separator gives back the original string |
| `Text.SplitJoin` | reverse_proxy.py:22 | splitting the join of a non-empty list of separator-free pieces gives back exactly those pieces |
| `Text.SplitSeparatorFree` | reverse_proxy.py:22 | a string without the separator splits into itself alone |
| `Text.LStrip` | reverse_proxy.py:37-38 | `lstrip(c)` returns a suffix of the input that does not start with `c`, and everything removed was `c` |
| `Text.LeadWith` | reverse_proxy.py:37-38 | an empty part stays empty; otherwise the result starts with exactly one `c`, its rest is the input with its leading run of `c` removed, and that run consisted only of `c` |
| `Text.LeadWithIdempotent` | reverse_proxy.py:37 | normalising an already normalised path or query changes nothing |
| `Text.LeadWithNormalised` | reverse_proxy.py:37 | a path that already starts with a single `/` is kept as it is |
| `Text.LeadWithUnprefixed` | reverse_proxy.py:38 | a non-empty query not starting with `?` just gains one `?` in front |
| `ProxyConfig.CheckSections` | reverse_proxy.py:89-95 | the in-order walk over the sections: a success hands back the whole configuration; an error names a listed section that lacks the key it reports (`CheckSectionsOk` and `CheckSectionsError` give both directions and the first violation) |
| `ProxyConfig.Validate` | reverse_proxy.py:86-95 | the verdict of `load_config`: `Empty` exactly when there are no sections; a success hands back the parsed sections; any other error names a listed section |
| `ProxyConfig.LoadConfig` | reverse_proxy.py:86-95 | the loop over sections with early exit returns exactly the verdict of `Validate` |
| `ProxyConfig.CheckSectionsOk` | reverse_proxy.py:89-95 | the section walk succeeds exactly when every section has both `origin` and `allowed_methods`, and then hands back the whole configuration |
| `ProxyConfig.CheckSectionsError` | reverse_proxy.py:89-95 | a failing walk names the first section, in order, that lacks a key, and reports `origin` before `allowed_methods` |
| `ProxyConfig.ValidateAccepts` | reverse_proxy.py:86-95 | `load_config` accepts exactly a configuration with at least one section whose every section has both keys; what it accepts satisfies `ConfigValid` |
| `ProxyConfig.ValidateRejects` | reverse_proxy.py:86-95 | a rejection is `Empty` exactly when there are no sections, and otherwise names the first violating section and the key it lacks |
| `ProxyConfig.EmptyValuesAccepted` | reverse_proxy.py:90-95 | values are not inspected: empty `origin` and `allowed_methods` strings pass validation |
| `Routing.MethodAllowed` | reverse_proxy.py:22 | the `in ….split(',')` test: a method containing a comma is never admitted, and when `allowed_methods` holds no comma, exactly the method equal to it is admitted |
| `Routing.RouteRequest` | reverse_proxy.py:19-26 | the decision in `prepare`: 404 exactly when the host has no section; 403 exactly when it has one whose tokens do not include the method; otherwise the request is accepted with the section's `origin`; no other status |
| `Routing.UnknownHostNotFound` | reverse_proxy.py:18-21 | a host that is not a section is answered 404 for every method, and no origin is resolved |
| `Routing.KnownHostDecision` | reverse_proxy.py:19-26 | a known host is never answered 404; it gets 403 exactly when the method is not a token of `allowed_methods`, and is otherwise accepted with the section's `origin` |
| `Routing.MethodAllowedTokens` | reverse_proxy.py:22 | when `allowed_methods` is the comma-join of comma-free tokens, a method is admitted exactly when it is one of them |
| `Routing.RouteByTokens` | reverse_proxy.py:19-26 | for a known host, routing accepts with the section's origin exactly when the method is a token, and answers 403 exactly when it is not |
| `Routing.CommaNeverAllowed` | reverse_proxy.py:22 | a method containing a comma is never admitted |
| `Routing.TokensNotTrimmed` | reverse_proxy.py:22 | tokens are not trimmed: `allowed_methods` of the form `A, B` admits ` B` (with the space) and not `B` |
| `Forwarding.Url` | reverse_proxy.py:32-39 | the URL starts with `proto://origin`; with an empty path and query it is exactly that; normalisation makes it at most two characters longer than its parts (one `/` and one `?`) |
| `Forwarding.UrlMirrorsInbound` | reverse_proxy.py:32-39 | a path starting with a single `/` and a query not starting with `?` reach the origin unchanged, as `proto://origin` + path + `?` + query |
| `Forwarding.UrlStable` | reverse_proxy.py:32-39 | rebuilding the URL from the already normalised path and query gives the same URL |
| `Forwarding.ForwardHeaders` | reverse_proxy.py:31-47 | `Host` becomes the origin; `X-Forwarded-For` becomes the client address when the section has `add_forwarded_for` and is otherwise untouched; every other header is unchanged; the key set grows by at most those two names |
| `Forwarding.ForwardBody` | reverse_proxy.py:46 | a body is sent exactly when the method is `POST`, and it is the inbound body |
| `Forwarding.Forward` | reverse_proxy.py:31-48 | the outbound request keeps the method and targets the rebuilt URL. Its headers are `ForwardHeaders` of the inbound ones: `Host` is the origin; `X-Forwarded-For` is the client address when the section has `add_forwarded_for`; every other header is kept. It has a body exactly for `POST`, and that body is the inbound body |
| `Forwarding.Relay` | reverse_proxy.py:50-59 | exactly one reply is sent: the fetched body with status 200, the `HTTPClientError` code, or 500 for any other failure |
| `Handler.Serve` | reverse_proxy.py:17-79 | the whole lifecycle as a value: every request is answered; a request that is not forwarded gets an error reply; a forwarded one keeps its method, and the client gets the relayed outcome of its fetch |
| `Handler.MainHandler.constructor` | reverse_proxy.py:13-14 | the handler starts with the given configuration and request, no host, no origin and nothing sent |
| `Handler.MainHandler.Prepare` | reverse_proxy.py:17-26 | records the host; on rejection sends the routing status and leaves the origin unset; on acceptance records the section's origin and sends nothing |
| `Handler.MainHandler.HandleRequest` | reverse_proxy.py:29-59 | the request's header map becomes `ForwardHeaders` of the old one, the request sent is `Forward` of the inbound request, and the reply is `Relay` of the fetch outcome |
| `Handler.MainHandler.Run` | reverse_proxy.py:17-79 | an unsupported method is answered 405; otherwise prepare runs, and only when it sent nothing the verb's handler runs (`_handle_request` for the five defined verbs, 405 for the rest); together this yields exactly the trace `Serve` describes |
| `Handler.ServeUnknownHost` | reverse_proxy.py:18-21 | an unknown host gets 404 for every supported method (405 for an unsupported one), whatever the body, and nothing is forwarded |
| `Handler.ServeUnhandledVerb` | reverse_proxy.py:61-79 | a method without a handler in the class is never forwarded: it gets routing's 404 or 403 when `prepare` refuses it, and 405 otherwise |
| `Handler.ServeForwardsOnlyAccepted` | reverse_proxy.py:17-79 | every request gets a reply; it is forwarded exactly when the class has a handler for its method and routing accepts it; what is sent is `Forward` of the request for the section's origin (same method, `Host` equal to the origin); the reply relays that fetch |
| `Handler.ExampleRoute` | reverse_proxy.py:19-26 | a host configured with `allowed_methods = GET` accepts GET and answers 403 to every other method |
| `Handler.ExampleUrl` | reverse_proxy.py:32-39 | path `/x` and query `y=1` for origin `a-origin:9000` give `http://a-origin:9000/x?y=1` |
| `Handler.ExampleForwarded` | reverse_proxy.py:29-52 | `GET /x?y=1` for a GET-only host is sent to `http://a-origin:9000/x?y=1`, and the origin's body reaches the client |
| `Handler.ExampleForbidden` | reverse_proxy.py:22-25 | `POST` to a GET-only host is answered 403 and nothing is forwarded |
| `Handler.ExampleUnreachable` | reverse_proxy.py:56-59 | a failure other than `HTTPClientError` is answered 500 |
| `Handler.SingleTokenRoute` | reverse_proxy.py:19-26 | a host whose `allowed_methods` is one comma-free token accepts exactly that token, for the section's origin |
| `Handler.PatchUnhandled` | reverse_proxy.py:61-79 | `PATCH` is a method Tornado supports but the class has no handler for |
| `Handler.ExamplePatchRefused` | reverse_proxy.py:61-79 | `PATCH` to a host that allows it is answered 405 and nothing is forwarded |

## Left out

- Tornado itself is not modelled: the application, `listen(8080)`, the I/O loop, coroutines and `yield`. The handler lifecycle appears only as the order `Run` calls things in.
- `AsyncHTTPClient.fetch` and the network are a parameter giving the outcome of each fetch. Timeouts, redirects, and which origin statuses Tornado raises as `HTTPClientError` are not modelled.
- An `HTTPClientError` without a response (Tornado's 599 for a timeout) is not modelled. There `e.response.code` would itself raise inside the `except` block.
- Reading the file, `getenv('PROXY_CONFIG', 'config.ini')` and `exit(-1)` are not modelled; `exit` is the `Err` result of `LoadConfig`.
- INI parsing is not modelled: the `DEFAULT` section with its inherited keys, key lower-casing, and value interpolation. The configuration arrives already parsed, as section names in file order plus a map, with values taken as already interpolated. `configparser` interpolates when a value is read. A value that fails interpolation (such as `origin = 50%`) therefore makes `load_config` raise when lines 99-100 read it for the log message. Start-up then dies with a traceback rather than `exit(-1)`, while `Validate` and `LoadConfig` accept that configuration.
- Header names are taken as already normalised. Tornado's case-insensitive header lookup is not modelled. Headers are a map from name to one value, so repeated header lines are not modelled: Tornado forwards them line by line, and `headers['Host']` joins repeated values with `,`.
- A request without a `Host` header is excluded by a precondition of `Prepare`, `Run` and `Serve`. In the source it raises `KeyError`.
- The outbound request shares the inbound header object in the source. Here it holds a copy of the header map. Nothing changes that map after the copy, so the copy does not alter behaviour.
- Logging output is not modelled. Its one effect on behaviour, the interpolation error at start-up, is described in the INI line above.
- Forwarding.Relay: gives the reply the handler sends. It does not model two ways in which Tornado's `RequestHandler.finish` changes that reply:
  - A 200 reply to a GET or HEAD gets an automatic `Etag`. When the client's `If-None-Match` header matches it, the client receives an empty 304 instead of the body. The proxy forwards `If-None-Match` to the origin, and an origin that does not know that etag answers 200, so this case is reachable.
  - An origin 304 arrives as `HTTPClientError(304)`. `send_error(304)` then fails Tornado's check that a 304 reply has no body, and the client receives 500, not the 304 that `Relay` gives.
- A `PUT` is forwarded with no body, and Tornado's client refuses a `PUT` without a body. In the source that error is caught by the generic handler and answered 500. The model leaves this to the `fetch` parameter, which decides the outcome of every fetch.

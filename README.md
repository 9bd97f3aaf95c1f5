# proxier: a Dafny model of the path-prefix reverse proxy's core

proxier is a reverse proxy written in Go. It takes a list of rules, each
pairing an endpoint prefix with a destination URL. A request whose path
begins with an endpoint is forwarded to that rule's destination. This
project models four parts of it and proves properties of them:

- `Config` (config/config.go): the `basicCheck` validator and the gate it
  forms in `LoadConfig`. The validator checks the server section, then
  requires a non-empty rule list, then checks each rule in order while
  remembering the endpoints already seen.
- `Proxy` (internal/proxy/proxy.go): the two handler constructors.
  - `HTTPHandler` has a Director hook that rewrites a request in place.
  - `FastHTTPHandler` has a closure that re-checks the prefix, rewrites the
    request URI, calls the upstream and turns an upstream error into 502.
  - The closure appears twice: as the pure function `HandleFast`, and as
    the method `Serve`, which changes a `RequestCtx` object in place.
- `FastServer` (internal/server/fasthttp.go): `newFastHTTP`, which fills the
  route table rule by rule and fails on the first bad rule, and the
  dispatcher it installs. The dispatcher answers `/` and `/livez` itself,
  otherwise runs the handler of some endpoint that begins the path, and
  otherwise answers 404.
- `Version` (version/version.go): `Schema.String`, which renders
  `Major.Minor.Patch[-Meta]` (the hyphenated pre-release form in item 9 of
  Semantic Versioning 2.0.0). A parser for that text proves that the
  rendering can be decoded.

`Text` holds Go's `strings.HasPrefix` and `strings.TrimPrefix`, and
`Results` holds the Option and Result types that stand in for nil and
Go's error returns.

The model stops where the code calls something it cannot see, and those
calls become parameters:

- `url.Parse` is a function `string -> Result<Url>`.
- `url.ParseRequestURI` is a predicate `string -> bool`.
- The upstream call `HostClient.Do` is a function from the client and the
  rewritten URI to `Delivered(response)` or `Failed(error)`.

The dispatcher scans a Go map, so Go's map iteration order decides which
handler runs when several endpoints match. The `Dispatch` method models
this by picking the next key with `:|`. Its specification, `Dispatched`,
allows any matching endpoint, and every property below is proved for
every such choice.

Two behaviours of the code are worth stating plainly:

- The standard Director does not check the endpoint prefix. A path
  without the endpoint is forwarded whole after the base path. No `/` is
  inserted between the base path and the remainder.
- The fast engine does not pick the longest match or the first-registered
  match. Which endpoint wins among overlapping ones is left open, as
  `OverlapIsAmbiguous` shows.

## Model

| member | source | states |
|---|---|---|
| Text.TrimPrefix | internal/proxy/proxy.go:24 | When `s` begins with `prefix`, putting `prefix` back in front of the result gives `s`; otherwise the result is `s` unchanged. |
| Text.HasPrefixIff | internal/proxy/proxy.go:50 | `HasPrefix(s, p)` holds exactly when `s == p + t` for some `t`. |
| Version.Decimal | version/version.go:22 | `%d` text is non-empty and all digits, and it begins with `0` only for the number zero. |
| Version.DecimalRoundTrip | version/version.go:22 | Reading the decimal text of `n` back gives `n`. |
| Version.Schema.String | version/version.go:21-28 | The rendered version contains `-` exactly when Meta is non-empty. |
| Version.TripleRoundTrip | version/version.go:22 | Splitting `Major.Minor.Patch` at its two dots and reading each field gives back the three numbers. |
| Version.ParseString | version/version.go:21-28 | Splitting the rendered text at its first `-`, and the part before it at `.`, recovers Major, Minor, Patch and Meta. With empty Meta there is no `-`, so the text is the bare triple. |
| Version.VersionString | version/version.go:14-19 | The built-in version renders as "1.0.0". |
| Config.BasicCheck | config/config.go:44-81 | The loop with its seen-set returns exactly `CheckError`. That is nil, or the first error met in the order server section, rule list, then each rule. |
| Config.RulesErrorNoneIff | config/config.go:60-80 | The rule loop passes exactly when every rule has an endpoint, a destination and a parseable URL, and no endpoint repeats or was seen before. Both directions are proved. |
| Config.CheckErrorNoneIff | config/config.go:44-81 | basicCheck returns nil exactly when every check passes (`Acceptable`). Both directions are proved. |
| Config.AcceptedEndpointsDistinct | config/config.go:60-73 | An accepted configuration has pairwise distinct endpoints. |
| Config.RulesErrorIsFirstFailure | config/config.go:62-78 | A failing rule list reports the error of its first failing rule. That rule is judged against the endpoints of the rules before it, and every earlier rule passes. |
| Config.CheckOrder | config/config.go:45-68 | A missing server section wins over every other error. An empty host is reported before an empty port, and each has its own message. An empty rule list gives its own error. An empty endpoint is reported before an empty destination, and each has its own message. |
| Config.LoadConfig | config/config.go:26-42 | A decoded configuration is returned, unmodified, exactly when it passes every check. Otherwise the result is basicCheck's error, or the decoding error returned unchanged. |
| Proxy.HTTPHandler | internal/proxy/proxy.go:14-35 | The constructor fails exactly when the destination does not parse, with "invalid destination URL ..." wrapping the parser's message. On success it returns the endpoint it was given, unchanged, and a handler bound to the parsed URL. |
| Proxy.DirectRewrites | internal/proxy/proxy.go:22-32 | The Director sets the URL scheme, URL host and Host header to the destination's. The outbound path is the base path, then the remainder directly with no slash added. When the path carried the endpoint, endpoint plus remainder is the inbound path. When it did not, the whole inbound path follows the base path. |
| Proxy.DirectInsertsNoSlash | internal/proxy/proxy.go:24-26 | Endpoint "/api" with base path "/v2" sends "/apiusers" to "/v2users". |
| Proxy.DirectForwardsUnmatchedPath | internal/proxy/proxy_test.go:34-48 | Endpoint "/proxy" with an empty base path forwards "/mockpath" as "/mockpath". |
| Proxy.ClientFor | internal/proxy/proxy.go:43-46 | The client dials the destination host, with TLS exactly when the scheme is "https". |
| Proxy.FastHTTPHandler | internal/proxy/proxy.go:37-79 | The constructor fails exactly when the destination does not parse, with the same wrapped message. On success it returns the endpoint it was given, and a handler for that endpoint with the parsed target and a client for its host. |
| Proxy.JoinPathShape | internal/proxy/proxy.go:57-62 | The outbound path is the base path followed by a part that begins with `/`. Removing a `/` added in front gives back the remainder. An empty remainder gives base + "/". |
| Proxy.FastRejectsForeignPath | internal/proxy/proxy.go:50-55 | A path without the endpoint gets 404 "Invalid endpoint" and keeps its request URI. The result does not depend on the upstream, so no call is made. |
| Proxy.FastForwards | internal/proxy/proxy.go:57-75 | A path with the endpoint goes to the destination's scheme and host, at the base path followed by a `/`-led remainder, the `/` being added only when the remainder lacks one. The endpoint plus that remainder gives back the inbound path, and a path equal to the endpoint gives base + "/". An upstream error becomes 502 "Proxy error: " + message. An upstream response is kept as it is. |
| Proxy.Serve | internal/proxy/proxy.go:48-76 | The in-place closure changes the request context exactly as `HandleFast` says. |
| FastServer.NewFastHTTP | internal/server/fasthttp.go:23-96 | Construction fails exactly when some destination does not parse. The error is then that of the first such rule, and no server is returned. Otherwise the table is `Routes` of all rules, the address is host + ":" + port, and the error channel has room for one error. |
| FastServer.RoutesKeys | internal/server/fasthttp.go:26-33 | The table's keys are exactly the rules' endpoints. |
| FastServer.RoutesLastWins | internal/server/fasthttp.go:31 | Each endpoint holds the handler of the last rule with that endpoint, so a later duplicate overwrites an earlier one. |
| FastServer.RoutesWellFormed | internal/server/fasthttp.go:27-31 | Every handler in the table is filed under its own endpoint. |
| FastServer.Dispatch | internal/server/fasthttp.go:35-61 | The dispatcher's effect on the context satisfies `Dispatched`. `/` and `/livez` are answered first. Otherwise the handler of one matching endpoint runs and nothing else is written. Otherwise the answer is 404 "Route not found". |
| FastServer.RootIsReserved | internal/server/fasthttp.go:38-43 | `/` gets 200 "Proxier is running" and its request is untouched, whatever routes are registered. |
| FastServer.LivezIsReserved | internal/server/fasthttp.go:44-48 | `/livez` gets 200 "OK" and its request is untouched, whatever routes are registered. |
| FastServer.UnmatchedIsNotFound | internal/server/fasthttp.go:59-60 | A path that no endpoint begins gets 404 "Route not found" and is not forwarded. |
| FastServer.DispatchAlwaysForwards | internal/server/fasthttp.go:51-56 | In a table newFastHTTP builds, a dispatched request is always forwarded by a matching handler, so "Invalid endpoint" is never produced through the dispatcher. |
| FastServer.MatchIsCharacterLevel | internal/server/fasthttp.go:52 | Endpoint "/test" also captures "/testing", which is forwarded as "/ing". |
| FastServer.OverlapIsAmbiguous | internal/server/fasthttp.go:51-56 | With "/api" and "/api/v2" both matching "/api/v2/x", either handler may run, and the upstream then sees "/v2/x" or "/x". |
| FastServer.SingleMatchIsChosen | internal/server/fasthttp.go:51-56 | When exactly one endpoint begins the path, its handler is the one that runs. |

## Left out

- Proxy.Direct: it has no contract of its own. Its meaning is stated by `DirectRewrites`.
- Proxy.HandleFast: it has no contract of its own. Its meaning is stated by `FastRejectsForeignPath` and `FastForwards`, and `Serve` is proved against it.
- Proxy.JoinPath: it has no contract of its own. Its meaning is stated by `JoinPathShape`.
- FastServer.Routes: it has no contract of its own. Its meaning is stated by `RoutesKeys`, `RoutesLastWins` and `RoutesWellFormed`, and `NewFastHTTP` is proved against it.
- Config.CheckError: it has no contract of its own. Its meaning is stated by `CheckErrorNoneIff`, `CheckOrder` and `RulesErrorIsFirstFailure`, and `BasicCheck` is proved against it.
- Config.RuleError and Config.RulesError: they have no contract of their own. Their meaning is stated by `RulesErrorNoneIff` and `RulesErrorIsFirstFailure`.
- The standard handler's forwarding is not modelled. `httputil.ReverseProxy` streams the request and response and translates upstream failures to 502 itself. That is library code, so only the Director hook is modelled.
- `url.Parse`, `url.ParseRequestURI` and `HostClient.Do` are foreign code. They are parameters, so the test's "://invalid-url" input is covered only as "a destination the parser rejects".
- The fast engine's `ctx.Path()` decodes and normalises the path, and `URI().SetPath` may normalise it again when the request is written. These steps belong to fasthttp and are not modelled: the model's paths are taken as given.
- Response headers, and the Host header of the fast engine's outbound request, are not modelled. fasthttp derives that Host header from the URI host.
- `fastHTTPServer.Start`, `Notify` and `Stop` are left out. They are goroutines, a cancel function, a channel send and `fasthttp.Server.Shutdown`, which is concurrency. The `fasthttp.Server` tuning constants and its `ErrorHandler` are library configuration and are left out too.
- internal/server/server.go and internal/server/http.go are left out. The standard engine's routing is `net/http.ServeMux` pattern matching, which is not part of this model.
- Logging (`log.Printf`, `slog`) is diagnostic only and is left out.
- `LoadConfig`'s file reading and YAML decoding are not modelled; their outcome is the `decoded` input. cmd/proxier/main.go (flags, environment files, signals) is not part of this model.
- A nil entry in the Go rule slice would make basicCheck panic. The model's rule list has no nil entries.
- Version numbers are `nat`. Go's `uint` is bounded, but `%d` writes every value the same way, so the bound does not affect any property here.
- Go strings are byte strings, and the model's strings are sequences of `char`. Prefix tests and trimming compare element by element in both, so the two agree on the ASCII paths the proxy handles.

/**
 * The two forwarding handlers of internal/proxy/proxy.go. Each is built
 * from an endpoint prefix and a destination URL; the standard one rewrites
 * a request in its Director hook, the fast one checks the prefix, rewrites
 * the request URI, calls the upstream and writes the response.
 */
module Proxy {
  import opened Results
  import opened Text

  /** The parts of a parsed URL the handlers use; also the fast engine's request URI. */
  datatype Url = Url(scheme: string, host: string, path: string)

  /**
   * url.Parse is outside this model: it is passed in as a function giving
   * the parsed URL or the parser's error message.
   */
  type UrlParser = string -> Result<Url>

  /** The parts of a net/http request the Director rewrites: r.URL.Scheme, r.URL.Host, r.Host, r.URL.Path. */
  datatype Request = Request(scheme: string, host: string, hostHeader: string, path: string)

  datatype Response = Response(status: int, body: string)

  /** What the upstream call (HostClient.Do) came back with: the upstream's response or an error. */
  datatype Upstream = Delivered(response: Response) | Failed(error: string)

  /** The fast handler's per-destination client: the address it dials and whether it uses TLS. */
  datatype HostClient = HostClient(addr: string, isTLS: bool)

  /** The upstream call, outside this model: it sees the client and the rewritten request URI. */
  type Transport = (HostClient, Url) -> Upstream

  const StatusOK := 200
  const StatusNotFound := 404
  const StatusBadGateway := 502

  /** The standard handler: the endpoint and the parsed destination its Director closes over. */
  datatype StdHandler = StdHandler(endpoint: string, target: Url)

  /** The fast handler: the endpoint, the parsed destination and the client it closes over. */
  datatype FastHandler = FastHandler(endpoint: string, target: Url, client: HostClient)

  function InvalidDestination(destination: string, cause: string): string
  {
    "invalid destination URL " + destination + ": " + cause
  }

  /**
   * HTTPHandler: fails when the destination does not parse; otherwise hands
   * back the endpoint it was given and a handler bound to the parsed URL.
   */
  function HTTPHandler(endpoint: string, destination: string, parse: UrlParser): (r: Result<(string, StdHandler)>)
    ensures r.Err? <==> parse(destination).Err?
    ensures r.Err? ==> r.error == InvalidDestination(destination, parse(destination).error)
    ensures r.Ok? ==> r.value.0 == endpoint && r.value.1 == StdHandler(endpoint, parse(destination).value)
  {
    match parse(destination)
    case Err(e) => Err(InvalidDestination(destination, e))
    case Ok(target) => Ok((endpoint, StdHandler(endpoint, target)))
  }

  /** The Director hook: base path plus the path without a leading endpoint; scheme and both hosts from the destination. */
  function Direct(h: StdHandler, r: Request): (out: Request)
  {
    Request(h.target.scheme, h.target.host, h.target.host, h.target.path + TrimPrefix(r.path, h.endpoint))
  }

  /**
   * What the Director does to a request: the destination's scheme and host
   * replace the request's, in the URL and in the Host header; the outbound
   * path is the base path followed directly by the inbound path with the
   * endpoint removed when it is there, and by the whole inbound path when it
   * is not. Putting the endpoint back in front of what follows the base path
   * recovers the inbound path whenever it carried the endpoint.
   */
  lemma DirectRewrites(h: StdHandler, r: Request)
    ensures var out := Direct(h, r);
      && out.scheme == h.target.scheme
      && out.host == h.target.host
      && out.hostHeader == h.target.host
      && HasPrefix(out.path, h.target.path)
      && (HasPrefix(r.path, h.endpoint) ==> h.endpoint + out.path[|h.target.path|..] == r.path)
      && (!HasPrefix(r.path, h.endpoint) ==> out.path == h.target.path + r.path)
  {
  }

  /**
   * No slash is put between base path and remainder: endpoint "/api" on a
   * destination with base path "/v2" sends "/apiusers" to "/v2users".
   */
  lemma DirectInsertsNoSlash(target: Url, r: Request)
    requires target.path == "/v2" && r.path == "/apiusers"
    ensures Direct(StdHandler("/api", target), r).path == "/v2users"
  {
  }

  /**
   * A path without the endpoint goes through as it is: endpoint "/proxy" on
   * a destination with an empty base path forwards "/mockpath" as "/mockpath".
   */
  lemma DirectForwardsUnmatchedPath(target: Url, r: Request)
    requires target.path == "" && r.path == "/mockpath"
    ensures Direct(StdHandler("/proxy", target), r).path == "/mockpath"
  {
    assert r.path[..6] != "/proxy" by {
      assert r.path[1] == 'm';
    }
  }

  /** FastHTTPHandler's client: it dials the destination host, with TLS exactly when the scheme is "https". */
  function ClientFor(target: Url): (c: HostClient)
    ensures c.addr == target.host
    ensures c.isTLS <==> target.scheme == "https"
  {
    HostClient(target.host, target.scheme == "https")
  }

  /**
   * FastHTTPHandler: fails when the destination does not parse; otherwise
   * hands back the endpoint it was given and a handler with a client for the
   * destination host.
   */
  function FastHTTPHandler(endpoint: string, destination: string, parse: UrlParser): (r: Result<(string, FastHandler)>)
    ensures r.Err? <==> parse(destination).Err?
    ensures r.Err? ==> r.error == InvalidDestination(destination, parse(destination).error)
    ensures r.Ok? ==> r.value.0 == endpoint && r.value.1.endpoint == endpoint
    ensures r.Ok? ==> r.value.1.target == parse(destination).value
    ensures r.Ok? ==> r.value.1.client.addr == r.value.1.target.host
    ensures r.Ok? ==> (r.value.1.client.isTLS <==> r.value.1.target.scheme == "https")
  {
    match parse(destination)
    case Err(e) => Err(InvalidDestination(destination, e))
    case Ok(target) => Ok((endpoint, FastHandler(endpoint, target, ClientFor(target))))
  }

  /** The fast handler's outbound path: base path, then the remainder with a `/` put in front unless it has one. */
  function JoinPath(base: string, rest: string): (out: string)
  {
    base + (if HasPrefix(rest, "/") then rest else "/" + rest)
  }

  /**
   * The part of the outbound path after the base path always begins with
   * `/`, and dropping that `/` when it was added gives back the remainder;
   * an empty remainder gives the base path and a single `/`.
   */
  lemma JoinPathShape(base: string, rest: string)
    ensures var out := JoinPath(base, rest);
      && HasPrefix(out, base)
      && |out| > |base|
      && out[|base|] == '/'
      && (if |rest| > 0 && rest[0] == '/' then out[|base|..] == rest else out[|base| + 1..] == rest)
      && (rest == "" ==> out == base + "/")
  {
  }

  /** The request and the response a fast handler sees and writes. */
  datatype Exchange = Exchange(uri: Url, response: Response)

  /** SetStatusCode then SetBodyString on the response; the request is untouched. */
  function Reply(x: Exchange, status: int, body: string): Exchange
  {
    x.(response := x.response.(status := status, body := body))
  }

  /** The request URI the fast handler sends for inbound path `path`. */
  function Outbound(h: FastHandler, path: string): Url
  {
    Url(h.target.scheme, h.target.host, JoinPath(h.target.path, TrimPrefix(path, h.endpoint)))
  }

  /** The fast handler after its prefix check has passed: rewrite the URI, call upstream, map an error to 502. */
  function Forward(h: FastHandler, x: Exchange, send: Transport): Exchange
  {
    var uri := Outbound(h, x.uri.path);
    match send(h.client, uri)
    case Delivered(resp) => Exchange(uri, resp)
    case Failed(e) => Reply(Exchange(uri, x.response), StatusBadGateway, "Proxy error: " + e)
  }

  /** The fast handler: a path without the endpoint is answered 404 "Invalid endpoint", anything else is forwarded. */
  function HandleFast(h: FastHandler, x: Exchange, send: Transport): Exchange
  {
    if !HasPrefix(x.uri.path, h.endpoint) then Reply(x, StatusNotFound, "Invalid endpoint")
    else Forward(h, x, send)
  }

  /**
   * A path without the endpoint gets 404 "Invalid endpoint", its request URI
   * stays as it was, and the outcome is the same whatever the upstream would
   * have answered: no upstream call is made.
   */
  lemma FastRejectsForeignPath(h: FastHandler, x: Exchange, send: Transport, other: Transport)
    requires !HasPrefix(x.uri.path, h.endpoint)
    ensures HandleFast(h, x, send).response == Response(StatusNotFound, "Invalid endpoint")
    ensures HandleFast(h, x, send).uri == x.uri
    ensures HandleFast(h, x, send) == HandleFast(h, x, other)
  {
  }

  /**
   * A path with the endpoint is sent to the destination's scheme and host at
   * the base path followed by a `/`-led remainder, the `/` being added only
   * when the remainder lacks one; endpoint and remainder together give back
   * the inbound path. An upstream error becomes 502 with
   * "Proxy error: " and the error text; an upstream response is kept as it is.
   */
  lemma FastForwards(h: FastHandler, x: Exchange, send: Transport)
    requires HasPrefix(x.uri.path, h.endpoint)
    ensures var y, rest := HandleFast(h, x, send), TrimPrefix(x.uri.path, h.endpoint);
      && y.uri.scheme == h.target.scheme
      && y.uri.host == h.target.host
      && HasPrefix(y.uri.path, h.target.path)
      && |y.uri.path| > |h.target.path|
      && y.uri.path[|h.target.path|] == '/'
      && (HasPrefix(rest, "/") ==> x.uri.path == h.endpoint + y.uri.path[|h.target.path|..])
      && (!HasPrefix(rest, "/") ==> x.uri.path == h.endpoint + y.uri.path[|h.target.path| + 1..])
      && (x.uri.path == h.endpoint ==> y.uri.path == h.target.path + "/")
      && (send(h.client, y.uri).Failed? ==>
            y.response == Response(StatusBadGateway, "Proxy error: " + send(h.client, y.uri).error))
      && (send(h.client, y.uri).Delivered? ==> y.response == send(h.client, y.uri).response)
  {
  }

  /**
   * The request context of the fast engine: the request URI, which the
   * handler rewrites in place, and the response it fills in.
   */
  class RequestCtx {
    var uri: Url
    var response: Response

    constructor (uri: Url)
      ensures this.uri == uri && response == Response(StatusOK, "")
    {
      this.uri := uri;
      response := Response(StatusOK, "");
    }

    function Snapshot(): Exchange
      reads this
    {
      Exchange(uri, response)
    }

    method SetStatusCode(status: int)
      modifies this
      ensures Snapshot() == old(Snapshot()).(response := old(response).(status := status))
    {
      response := response.(status := status);
    }

    method SetBodyString(body: string)
      modifies this
      ensures Snapshot() == old(Snapshot()).(response := old(response).(body := body))
    {
      response := response.(body := body);
    }
  }

  /**
   * The closure FastHTTPHandler returns, run on a request context: it
   * changes the context exactly as HandleFast says.
   */
  method Serve(h: FastHandler, ctx: RequestCtx, send: Transport)
    modifies ctx
    ensures ctx.Snapshot() == HandleFast(h, old(ctx.Snapshot()), send)
  {
    var originalPath := ctx.uri.path;
    if !HasPrefix(originalPath, h.endpoint) {
      ctx.SetStatusCode(StatusNotFound);
      ctx.SetBodyString("Invalid endpoint");
      return;
    }

    var trimmedPath := TrimPrefix(originalPath, h.endpoint);
    if !HasPrefix(trimmedPath, "/") {
      trimmedPath := "/" + trimmedPath;
    }
    var fullProxyPath := h.target.path + trimmedPath;

    ctx.uri := ctx.uri.(scheme := h.target.scheme);
    ctx.uri := ctx.uri.(host := h.target.host);
    ctx.uri := ctx.uri.(path := fullProxyPath);

    match send(h.client, ctx.uri)
    case Delivered(resp) =>
      ctx.response := resp;
    case Failed(e) =>
      ctx.SetStatusCode(StatusBadGateway);
      ctx.SetBodyString("Proxy error: " + e);
  }
}

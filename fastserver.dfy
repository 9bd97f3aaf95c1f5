/**
 * The fast engine's server (internal/server/fasthttp.go): the route table
 * built from the proxy rules, and the dispatcher that answers the reserved
 * paths itself and hands every other request to a handler whose endpoint
 * begins its path.
 */
module FastServer {
  import opened Results
  import opened Text
  import opened Config
  import opened Proxy

  const Banner := "Proxier is running"

  /** What newFastHTTP keeps of a server: the route table, the listen address, the error channel's capacity. */
  datatype FastHTTPServer = FastHTTPServer(handlers: map<string, FastHandler>, addr: string, errChCapacity: nat)

  /** Every entry of the table is the handler built for the endpoint it is filed under. */
  ghost predicate WellFormed(handlers: map<string, FastHandler>)
  {
    forall e :: e in handlers ==> handlers[e].endpoint == e
  }

  /** The handler FastHTTPHandler builds for a rule whose destination parses. */
  function RuleHandler(rule: ProxyRule, parse: UrlParser): FastHandler
    requires parse(rule.destinationURL).Ok?
  {
    var target := parse(rule.destinationURL).value;
    FastHandler(rule.endpoint, target, ClientFor(target))
  }

  function ConstructionError(rule: ProxyRule, cause: string): string
  {
    "failed to create fasthttp proxy handler for " + rule.endpoint + ": " + cause
  }

  /** Every rule's destination parses. */
  ghost predicate AllParse(rules: seq<ProxyRule>, parse: UrlParser)
  {
    forall i :: 0 <= i < |rules| ==> parse(rules[i].destinationURL).Ok?
  }

  /** The table newFastHTTP fills from `rules`, one assignment per rule, in order. */
  function Routes(rules: seq<ProxyRule>, parse: UrlParser): map<string, FastHandler>
    requires AllParse(rules, parse)
  {
    if rules == [] then map[]
    else
      var last := rules[|rules| - 1];
      Routes(rules[..|rules| - 1], parse)[last.endpoint := RuleHandler(last, parse)]
  }

  /**
   * newFastHTTP: a handler per rule, in order; the first rule whose
   * destination does not parse aborts construction with its error and no
   * server. Otherwise the server holds the table of all rules and listens
   * on host:port.
   */
  method NewFastHTTP(cfg: ServerConfig, proxyRules: seq<ProxyRule>, parse: UrlParser) returns (r: Result<FastHTTPServer>)
    ensures r.Err? <==> !AllParse(proxyRules, parse)
    ensures r.Err? ==> (exists k :: 0 <= k < |proxyRules| &&
                          AllParse(proxyRules[..k], parse) &&
                          parse(proxyRules[k].destinationURL).Err? &&
                          r.error == ConstructionError(proxyRules[k], InvalidDestination(
                            proxyRules[k].destinationURL, parse(proxyRules[k].destinationURL).error)))
    ensures r.Ok? ==> AllParse(proxyRules, parse) && r.value.handlers == Routes(proxyRules, parse)
    ensures r.Ok? ==> r.value.addr == cfg.host + ":" + cfg.listenPort && r.value.errChCapacity == 1
  {
    var handlers: map<string, FastHandler> := map[];
    var n := 0;
    while n < |proxyRules|
      invariant 0 <= n <= |proxyRules|
      invariant AllParse(proxyRules[..n], parse)
      invariant handlers == Routes(proxyRules[..n], parse)
    {
      var rule := proxyRules[n];
      var made := FastHTTPHandler(rule.endpoint, rule.destinationURL, parse);
      if made.Err? {
        return Err(ConstructionError(rule, made.error));
      }
      var (endpoint, handler) := made.value;
      handlers := handlers[endpoint := handler];
      assert proxyRules[..n + 1][..n] == proxyRules[..n];
      n := n + 1;
    }
    assert proxyRules[..n] == proxyRules;
    return Ok(FastHTTPServer(handlers, cfg.host + ":" + cfg.listenPort, 1));
  }

  /** The table's keys are exactly the rules' endpoints. */
  lemma {:induction false} RoutesKeys(rules: seq<ProxyRule>, parse: UrlParser)
    requires AllParse(rules, parse)
    ensures Routes(rules, parse).Keys == set i | 0 <= i < |rules| :: rules[i].endpoint
  {
    if rules != [] {
      var init := rules[..|rules| - 1];
      assert AllParse(init, parse);
      RoutesKeys(init, parse);
      assert (set i | 0 <= i < |rules| :: rules[i].endpoint)
          == (set i | 0 <= i < |init| :: init[i].endpoint) + {rules[|rules| - 1].endpoint};
    }
  }

  /**
   * Under each endpoint the table holds the handler of the last rule with
   * that endpoint: a later duplicate replaces an earlier one.
   */
  lemma {:induction false} RoutesLastWins(rules: seq<ProxyRule>, parse: UrlParser, i: int)
    requires AllParse(rules, parse) && 0 <= i < |rules|
    requires forall j :: i < j < |rules| ==> rules[j].endpoint != rules[i].endpoint
    ensures rules[i].endpoint in Routes(rules, parse)
    ensures Routes(rules, parse)[rules[i].endpoint] == RuleHandler(rules[i], parse)
  {
    if i < |rules| - 1 {
      var init := rules[..|rules| - 1];
      assert AllParse(init, parse);
      assert init[i] == rules[i];
      RoutesLastWins(init, parse, i);
    }
  }

  /** Every entry of the table is filed under its own handler's endpoint. */
  lemma {:induction false} RoutesWellFormed(rules: seq<ProxyRule>, parse: UrlParser)
    requires AllParse(rules, parse)
    ensures WellFormed(Routes(rules, parse))
  {
    if rules != [] {
      var init := rules[..|rules| - 1];
      assert AllParse(init, parse);
      RoutesWellFormed(init, parse);
    }
  }

  /** The endpoints in the table that begin `path`, character by character. */
  function Matches(handlers: map<string, FastHandler>, path: string): set<string>
  {
    set e | e in handlers.Keys && HasPrefix(path, e)
  }

  /**
   * What the dispatcher may do to an exchange: `/` and `/livez` are answered
   * directly; otherwise the handler of ANY endpoint that begins the path runs
   * (which one depends on the map's iteration order) and nothing else is
   * written; with no such endpoint the answer is 404 "Route not found".
   */
  ghost predicate Dispatched(handlers: map<string, FastHandler>, before: Exchange, after: Exchange, send: Transport)
  {
    var path := before.uri.path;
    if path == "/" then after == Reply(before, StatusOK, Banner)
    else if path == "/livez" then after == Reply(before, StatusOK, "OK")
    else if Matches(handlers, path) != {} then
      exists e :: e in Matches(handlers, path) && after == HandleFast(handlers[e], before, send)
    else after == Reply(before, StatusNotFound, "Route not found")
  }

  /**
   * The request handler newFastHTTP installs: the reserved paths, then a
   * scan of the table in an order this model leaves open, then 404.
   */
  method Dispatch(handlers: map<string, FastHandler>, ctx: RequestCtx, send: Transport)
    modifies ctx
    ensures Dispatched(handlers, old(ctx.Snapshot()), ctx.Snapshot(), send)
  {
    var path := ctx.uri.path;
    if path == "/" {
      ctx.SetStatusCode(StatusOK);
      ctx.SetBodyString(Banner);
      return;
    }
    if path == "/livez" {
      ctx.SetStatusCode(StatusOK);
      ctx.SetBodyString("OK");
      return;
    }

    var unvisited := handlers.Keys;
    while unvisited != {}
      invariant unvisited <= handlers.Keys
      invariant forall e :: e in handlers && e !in unvisited ==> !HasPrefix(path, e)
      invariant ctx.Snapshot() == old(ctx.Snapshot())
      decreases unvisited
    {
      var endpoint :| endpoint in unvisited;
      if HasPrefix(path, endpoint) {
        Serve(handlers[endpoint], ctx, send);
        assert endpoint in Matches(handlers, path);
        return;
      }
      unvisited := unvisited - {endpoint};
    }

    assert Matches(handlers, path) == {};
    ctx.SetStatusCode(StatusNotFound);
    ctx.SetBodyString("Route not found");
  }

  /** `/` is answered 200 "Proxier is running" whatever the table holds; the request is not touched. */
  lemma RootIsReserved(handlers: map<string, FastHandler>, other: map<string, FastHandler>,
                       before: Exchange, after: Exchange, send: Transport)
    requires before.uri.path == "/" && Dispatched(handlers, before, after, send)
    ensures after.response == Response(StatusOK, Banner) && after.uri == before.uri
    ensures Dispatched(other, before, after, send)
  {
  }

  /** `/livez` is answered 200 "OK" whatever the table holds; the request is not touched. */
  lemma LivezIsReserved(handlers: map<string, FastHandler>, other: map<string, FastHandler>,
                        before: Exchange, after: Exchange, send: Transport)
    requires before.uri.path == "/livez" && Dispatched(handlers, before, after, send)
    ensures after.response == Response(StatusOK, "OK") && after.uri == before.uri
    ensures Dispatched(other, before, after, send)
  {
  }

  /** A path no endpoint begins is answered 404 "Route not found" and not forwarded. */
  lemma UnmatchedIsNotFound(handlers: map<string, FastHandler>, before: Exchange, after: Exchange, send: Transport)
    requires before.uri.path != "/" && before.uri.path != "/livez"
    requires forall e :: e in handlers ==> !HasPrefix(before.uri.path, e)
    requires Dispatched(handlers, before, after, send)
    ensures after == Reply(before, StatusNotFound, "Route not found")
  {
  }

  /**
   * Through the dispatcher a handler never answers "Invalid endpoint": in the
   * table newFastHTTP builds, the handler chosen for a path carries an
   * endpoint that begins that path, so its own check passes and the request
   * is forwarded.
   */
  lemma DispatchAlwaysForwards(rules: seq<ProxyRule>, parse: UrlParser, before: Exchange, after: Exchange, send: Transport)
    requires AllParse(rules, parse)
    requires before.uri.path != "/" && before.uri.path != "/livez"
    requires Dispatched(Routes(rules, parse), before, after, send)
    requires Matches(Routes(rules, parse), before.uri.path) != {}
    ensures exists e :: e in Routes(rules, parse) && HasPrefix(before.uri.path, e) &&
                        after == Forward(Routes(rules, parse)[e], before, send)
  {
    var handlers := Routes(rules, parse);
    RoutesWellFormed(rules, parse);
    var e :| e in Matches(handlers, before.uri.path) && after == HandleFast(handlers[e], before, send);
    assert HasPrefix(before.uri.path, handlers[e].endpoint);
  }

  /**
   * Matching is by characters, not path segments: with endpoint "/test",
   * "/testing" goes to that handler, which sends the remainder as "/ing".
   */
  lemma MatchIsCharacterLevel(h: FastHandler, before: Exchange, after: Exchange, send: Transport)
    requires h.endpoint == "/test" && h.target.path == ""
    requires before.uri.path == "/testing"
    requires Dispatched(map["/test" := h], before, after, send)
    ensures after.uri.path == "/ing"
  {
    var path := before.uri.path;
    assert HasPrefix(path, "/test");
    assert "/test" in Matches(map["/test" := h], path);
    assert TrimPrefix(path, "/test") == "ing";
    assert "ing"[..1][0] == 'i';
    assert JoinPath("", "ing") == "/ing";
  }

  /**
   * Overlapping endpoints are not resolved: when "/api" and "/api/v2" both
   * begin the path, either handler may run, and the upstream sees a
   * different path in each case.
   */
  lemma OverlapIsAmbiguous(a: FastHandler, b: FastHandler, before: Exchange, send: Transport)
    requires a.endpoint == "/api" && b.endpoint == "/api/v2" && a.target.path == "" && b.target.path == ""
    requires before.uri.path == "/api/v2/x"
    ensures Dispatched(map["/api" := a, "/api/v2" := b], before, HandleFast(a, before, send), send)
    ensures Dispatched(map["/api" := a, "/api/v2" := b], before, HandleFast(b, before, send), send)
    ensures HandleFast(a, before, send).uri.path == "/v2/x"
    ensures HandleFast(b, before, send).uri.path == "/x"
  {
    var t := map["/api" := a, "/api/v2" := b];
    var path := before.uri.path;
    assert HasPrefix(path, "/api") && HasPrefix(path, "/api/v2");
    assert "/api" in Matches(t, path) && "/api/v2" in Matches(t, path);
    assert TrimPrefix(path, "/api") == "/v2/x";
    assert TrimPrefix(path, "/api/v2") == "/x";
  }

  /**
   * When exactly one endpoint begins the path, that endpoint's handler is
   * the one that runs.
   */
  lemma SingleMatchIsChosen(handlers: map<string, FastHandler>, e: string, before: Exchange, after: Exchange, send: Transport)
    requires before.uri.path != "/" && before.uri.path != "/livez"
    requires e in handlers && HasPrefix(before.uri.path, e)
    requires forall k :: k in handlers && k != e ==> !HasPrefix(before.uri.path, k)
    requires Dispatched(handlers, before, after, send)
    ensures after == HandleFast(handlers[e], before, send)
  {
    assert Matches(handlers, before.uri.path) == {e};
  }
}

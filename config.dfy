/**
 * The configuration gate (config/config.go): the server section and the
 * ordered list of proxy rules, and the checks a decoded configuration must
 * pass before the program may use it.
 */
module Config {
  import opened Results

  datatype ServerConfig = ServerConfig(host: string, listenPort: string)

  datatype ProxyRule = ProxyRule(endpoint: string, destinationURL: string)

  /** A decoded configuration; a missing `server` section is None (a nil pointer in Go). */
  datatype Config = Config(server: Option<ServerConfig>, proxy: seq<ProxyRule>)

  /**
   * The request-URI parser (url.ParseRequestURI) is outside this model: it is
   * passed in as the predicate "parses without error".
   */
  type UriCheck = string -> bool

  /** The error of the server section, checked before any rule. */
  function ServerError(server: Option<ServerConfig>): Option<string>
  {
    match server
    case None => Some("server configuration is missing")
    case Some(s) =>
      if s.host == "" then Some("server.host cannot be empty")
      else if s.listenPort == "" then Some("server.listen_port cannot be empty")
      else None
  }

  /** The error of one rule, given the endpoints of the rules before it. */
  function RuleError(rule: ProxyRule, seen: set<string>, valid: UriCheck): Option<string>
  {
    if rule.endpoint == "" then Some("proxy rule endpoint cannot be empty")
    else if rule.destinationURL == "" then Some("proxy rule destination_url cannot be empty")
    else if rule.endpoint in seen then Some("duplicate proxy endpoint: " + rule.endpoint)
    else if !valid(rule.destinationURL) then Some("invalid URL in proxy rule: " + rule.destinationURL)
    else None
  }

  /** The error of the first failing rule in `rules`, whose predecessors' endpoints are `seen`. */
  function RulesError(rules: seq<ProxyRule>, seen: set<string>, valid: UriCheck): Option<string>
    decreases |rules|
  {
    if rules == [] then None
    else
      match RuleError(rules[0], seen, valid)
      case Some(e) => Some(e)
      case None => RulesError(rules[1..], seen + {rules[0].endpoint}, valid)
  }

  /** What basicCheck returns for `c`: None for nil, or the first error met. */
  function CheckError(c: Config, valid: UriCheck): Option<string>
  {
    if ServerError(c.server).Some? then ServerError(c.server)
    else if |c.proxy| == 0 then Some("at least one proxy rule must be defined")
    else RulesError(c.proxy, {}, valid)
  }

  /** The endpoints of the first `k` rules. */
  function SeenBefore(rules: seq<ProxyRule>, k: nat): set<string>
    requires k <= |rules|
  {
    set j | 0 <= j < k :: rules[j].endpoint
  }

  /** Every check passes: the declarative reading of a configuration basicCheck accepts. */
  ghost predicate Acceptable(c: Config, valid: UriCheck)
  {
    && c.server.Some?
    && c.server.value.host != ""
    && c.server.value.listenPort != ""
    && |c.proxy| > 0
    && (forall i :: 0 <= i < |c.proxy| ==>
          c.proxy[i].endpoint != "" && c.proxy[i].destinationURL != "" && valid(c.proxy[i].destinationURL))
    && (forall i, j :: 0 <= i < j < |c.proxy| ==> c.proxy[i].endpoint != c.proxy[j].endpoint)
  }

  /**
   * (*Config).basicCheck: the server section, then a non-empty rule list,
   * then each rule in order, remembering the endpoints met so far.
   */
  method BasicCheck(c: Config, valid: UriCheck) returns (err: Option<string>)
    ensures err == CheckError(c, valid)
  {
    if c.server.None? {
      return Some("server configuration is missing");
    }
    if c.server.value.host == "" {
      return Some("server.host cannot be empty");
    }
    if c.server.value.listenPort == "" {
      return Some("server.listen_port cannot be empty");
    }
    if |c.proxy| == 0 {
      return Some("at least one proxy rule must be defined");
    }
    var seenEndpoints: set<string> := {};
    var i := 0;
    while i < |c.proxy|
      invariant 0 <= i <= |c.proxy|
      invariant RulesError(c.proxy, {}, valid) == RulesError(c.proxy[i..], seenEndpoints, valid)
    {
      var rule := c.proxy[i];
      if rule.endpoint == "" {
        return Some("proxy rule endpoint cannot be empty");
      }
      if rule.destinationURL == "" {
        return Some("proxy rule destination_url cannot be empty");
      }
      if rule.endpoint in seenEndpoints {
        return Some("duplicate proxy endpoint: " + rule.endpoint);
      }
      seenEndpoints := seenEndpoints + {rule.endpoint};
      if !valid(rule.destinationURL) {
        return Some("invalid URL in proxy rule: " + rule.destinationURL);
      }
      assert c.proxy[i..][1..] == c.proxy[i + 1..];
      i := i + 1;
    }
    return None;
  }

  /** RulesError is None exactly when every rule passes and no endpoint repeats or was seen before. */
  lemma {:induction false} RulesErrorNoneIff(rules: seq<ProxyRule>, seen: set<string>, valid: UriCheck)
    ensures RulesError(rules, seen, valid).None? <==>
      && (forall i :: 0 <= i < |rules| ==>
            rules[i].endpoint != "" && rules[i].destinationURL != "" && valid(rules[i].destinationURL)
            && rules[i].endpoint !in seen)
      && (forall i, j :: 0 <= i < j < |rules| ==> rules[i].endpoint != rules[j].endpoint)
    decreases |rules|
  {
    if rules != [] {
      RulesErrorNoneIff(rules[1..], seen + {rules[0].endpoint}, valid);
      forall i | 0 < i < |rules| ensures rules[1..][i - 1] == rules[i] { }
    }
  }

  /** basicCheck returns nil exactly when every check passes. */
  lemma CheckErrorNoneIff(c: Config, valid: UriCheck)
    ensures CheckError(c, valid).None? <==> Acceptable(c, valid)
  {
    RulesErrorNoneIff(c.proxy, {}, valid);
  }

  /**
   * The order of the checks: a missing server section is reported whatever
   * else is wrong, an empty host before an empty port, and within a rule an
   * empty endpoint before an empty destination.
   */
  lemma CheckOrder(c: Config, valid: UriCheck, rule: ProxyRule, seen: set<string>)
    ensures c.server.None? ==> CheckError(c, valid) == Some("server configuration is missing")
    ensures c.server.Some? && c.server.value.host == "" ==> CheckError(c, valid) == Some("server.host cannot be empty")
    ensures c.server.Some? && c.server.value.host != "" && c.server.value.listenPort == "" ==>
              CheckError(c, valid) == Some("server.listen_port cannot be empty")
    ensures rule.endpoint == "" ==> RuleError(rule, seen, valid) == Some("proxy rule endpoint cannot be empty")
    ensures rule.endpoint != "" && rule.destinationURL == "" ==>
              RuleError(rule, seen, valid) == Some("proxy rule destination_url cannot be empty")
    ensures ServerError(c.server).None? && |c.proxy| == 0 ==>
              CheckError(c, valid) == Some("at least one proxy rule must be defined")
  {
  }

  /** A configuration that passes has pairwise distinct endpoints. */
  lemma AcceptedEndpointsDistinct(c: Config, valid: UriCheck)
    requires CheckError(c, valid) == None
    ensures forall i, j :: 0 <= i < |c.proxy| && 0 <= j < |c.proxy| && i != j ==>
      c.proxy[i].endpoint != c.proxy[j].endpoint
  {
    CheckErrorNoneIff(c, valid);
  }

  /**
   * When the rules fail, the error reported is that of the first failing
   * rule, judged against the endpoints of the rules before it.
   */
  lemma {:induction false} RulesErrorIsFirstFailure(rules: seq<ProxyRule>, valid: UriCheck, e: string)
    requires RulesError(rules, {}, valid) == Some(e)
    ensures exists k :: 0 <= k < |rules| &&
              (forall j :: 0 <= j < k ==> RuleError(rules[j], SeenBefore(rules, j), valid).None?) &&
              RuleError(rules[k], SeenBefore(rules, k), valid) == Some(e)
  {
    assert rules[0..] == rules;
    assert SeenBefore(rules, 0) == {};
    FirstFailureFrom(rules, 0, valid, e);
  }

  lemma {:induction false} FirstFailureFrom(rules: seq<ProxyRule>, n: nat, valid: UriCheck, e: string)
    requires n <= |rules|
    requires forall j :: 0 <= j < n ==> RuleError(rules[j], SeenBefore(rules, j), valid).None?
    requires RulesError(rules[n..], SeenBefore(rules, n), valid) == Some(e)
    ensures exists k :: n <= k < |rules| &&
              (forall j :: 0 <= j < k ==> RuleError(rules[j], SeenBefore(rules, j), valid).None?) &&
              RuleError(rules[k], SeenBefore(rules, k), valid) == Some(e)
    decreases |rules| - n
  {
    assert rules[n..] != [] && rules[n..][0] == rules[n];
    if RuleError(rules[n], SeenBefore(rules, n), valid).None? {
      assert rules[n..][1..] == rules[n + 1..];
      assert SeenBefore(rules, n) + {rules[n].endpoint} == SeenBefore(rules, n + 1);
      FirstFailureFrom(rules, n + 1, valid, e);
    }
  }

  /**
   * LoadConfig's gate: a decoded configuration is handed out, unmodified,
   * only when basicCheck accepted it. Reading the file and decoding YAML are
   * outside the model; their outcome is `decoded`.
   */
  function LoadConfig(decoded: Result<Config>, valid: UriCheck): (r: Result<Config>)
    ensures r.Ok? <==> decoded.Ok? && Acceptable(decoded.value, valid)
    ensures r.Ok? ==> r.value == decoded.value
    ensures decoded.Ok? && r.Err? ==> Some(r.error) == CheckError(decoded.value, valid)
    ensures decoded.Err? ==> r == decoded
  {
    match decoded
    case Err(e) => Err(e)
    case Ok(c) =>
      CheckErrorNoneIff(c, valid);
      match CheckError(c, valid)
      case Some(e) => Err(e)
      case None => Ok(c)
  }
}

/** Configuration records, their defaulting, and the health-check URL
    (config/config.go). Decoding the TOML file is not modelled: `NewConfig`
    receives what the decoder produced, or its error. */
module Config {
  import opened Wrappers
  import opened GoTime
  import opened Url

  /** `DefaultTimeout`, in seconds. */
  const DefaultTimeout: Int64 := 30
  /** `DefaultPort`. */
  const DefaultPort: string := ":8080"

  datatype Route = Route(path: string, backend: string, timeout: Int64, healthCheckPath: string)

  datatype Server = Server(port: string, debug: bool)

  /** The value of a `Config`: its server settings and its routes in order. */
  datatype ConfigData = ConfigData(server: Server, routes: seq<Route>)

  /** `Route.HealthCheckEnabled`. */
  function HealthCheckEnabled(route: Route): (enabled: bool)
    ensures enabled <==> route.healthCheckPath != ""
  {
    route.healthCheckPath != ""
  }

  const NotEnabledError: string := "config: health check is not enabled"
  const ParseBackendPrefix: string := "config: failed to parse backend URL for health check: "
  const ParsePathPrefix: string := "config: failed to parse health check path: "

  /** `Route.HealthCheckURL`: the health-check path resolved against the
      backend. Its errors are reported in a fixed order: not enabled (without
      looking at the backend), then an unparsable backend, then an
      unresolvable path. */
  function HealthCheckURL(lib: Library, route: Route): (r: Result<string>)
    ensures !HealthCheckEnabled(route) ==> r == Failure(NotEnabledError)
    ensures HealthCheckEnabled(route) && lib.parse(route.backend).Failure? ==>
      r == Failure(ParseBackendPrefix + lib.parse(route.backend).error)
    ensures HealthCheckEnabled(route) && lib.parse(route.backend).Success? ==>
      var resolved := lib.resolve(lib.parse(route.backend).value, route.healthCheckPath);
      r == if resolved.Failure? then Failure(ParsePathPrefix + resolved.error)
           else Success(lib.format(resolved.value))
  {
    if !HealthCheckEnabled(route) then Failure(NotEnabledError)
    else
      match lib.parse(route.backend)
      case Failure(e) => Failure(ParseBackendPrefix + e)
      case Success(backendURL) =>
        match lib.resolve(backendURL, route.healthCheckPath)
        case Failure(e) => Failure(ParsePathPrefix + e)
        case Success(u) => Success(lib.format(u))
  }

  /** A disabled health check fails the same way whatever the backend and
      the URL library: the backend is never parsed. */
  lemma HealthCheckURLDisabledIgnoresBackend(lib1: Library, lib2: Library, route: Route, backend: string)
    requires !HealthCheckEnabled(route)
    ensures HealthCheckURL(lib1, route) == HealthCheckURL(lib2, route.(backend := backend))
  {
  }

  /** A health-check URL exists only for an enabled route whose backend
      parses and whose path resolves. */
  lemma HealthCheckURLSuccessIff(lib: Library, route: Route)
    ensures HealthCheckURL(lib, route).Success? <==>
      && HealthCheckEnabled(route)
      && lib.parse(route.backend).Success?
      && lib.resolve(lib.parse(route.backend).value, route.healthCheckPath).Success?
  {
  }

  /** The loop body of `NewConfig`: a non-positive timeout becomes the default. */
  function WithDefaultTimeout(route: Route): (r: Route)
    ensures r.timeout > 0
    ensures route.timeout > 0 ==> r == route
    ensures route.timeout <= 0 ==> r == route.(timeout := DefaultTimeout)
  {
    if route.timeout <= 0 then route.(timeout := DefaultTimeout) else route
  }

  /** What `NewConfig` makes of a decoded configuration. */
  function WithDefaults(c: ConfigData): (d: ConfigData)
    ensures d.server.port == if c.server.port == "" then DefaultPort else c.server.port
    ensures d.server.debug == c.server.debug
    ensures |d.routes| == |c.routes|
    ensures forall i :: 0 <= i < |c.routes| ==> d.routes[i] == WithDefaultTimeout(c.routes[i])
  {
    var port := if c.server.port == "" then DefaultPort else c.server.port;
    ConfigData(c.server.(port := port), seq(|c.routes|, i requires 0 <= i < |c.routes| => WithDefaultTimeout(c.routes[i])))
  }

  /** After defaulting the port is set and every timeout is positive; paths,
      backends, health-check paths and positive timeouts are kept. */
  lemma WithDefaultsEstablishes(c: ConfigData)
    ensures WithDefaults(c).server.port != ""
    ensures forall i :: 0 <= i < |c.routes| ==>
      var r := WithDefaults(c).routes[i];
      && r.timeout > 0
      && r.path == c.routes[i].path
      && r.backend == c.routes[i].backend
      && r.healthCheckPath == c.routes[i].healthCheckPath
      && (c.routes[i].timeout > 0 ==> r.timeout == c.routes[i].timeout)
      && (c.routes[i].timeout <= 0 ==> r.timeout == DefaultTimeout)
  {
  }

  /** Defaulting a second time changes nothing. */
  lemma WithDefaultsIdempotent(c: ConfigData)
    ensures WithDefaults(WithDefaults(c)) == WithDefaults(c)
  {
  }

  /** `Config`, whose `Routes` slice `NewConfig` updates in place. */
  class Config {
    var server: Server
    var routes: array<Route>

    ghost function Data(): ConfigData
      reads this, routes
    {
      ConfigData(server, routes[..])
    }

    /** The configuration as the decoder filled it in. */
    constructor Decoded(d: ConfigData)
      ensures Data() == d && fresh(routes)
    {
      server := d.server;
      routes := new Route[|d.routes|](i requires 0 <= i < |d.routes| => d.routes[i]);
    }
  }

  const DecodeErrorPrefix: string := "config: failed to decode config file: "

  /** `NewConfig` after decoding: fills in the default port, then replaces
      each non-positive route timeout in place. */
  method NewConfig(decoded: Result<ConfigData>) returns (cfg: Config?, err: Option<string>)
    ensures decoded.Failure? ==> cfg == null && err == Some(DecodeErrorPrefix + decoded.error)
    ensures decoded.Success? ==>
      && err == None && cfg != null && fresh(cfg) && fresh(cfg.routes)
      && cfg.Data() == WithDefaults(decoded.value)
  {
    if decoded.Failure? {
      return null, Some(DecodeErrorPrefix + decoded.error);
    }
    var c := new Config.Decoded(decoded.value);
    if c.server.port == "" {
      c.server := c.server.(port := DefaultPort);
    }
    ghost var original := decoded.value.routes;
    for i := 0 to c.routes.Length
      invariant fresh(c.routes)
      invariant c.routes.Length == |original|
      invariant forall j :: 0 <= j < i ==> c.routes[j] == WithDefaultTimeout(original[j])
      invariant forall j :: i <= j < c.routes.Length ==> c.routes[j] == original[j]
      invariant c.server == WithDefaults(decoded.value).server
    {
      var route := c.routes[i];
      if route.timeout <= 0 {
        c.routes[i] := route.(timeout := DefaultTimeout);
      }
    }
    assert c.routes[..] == WithDefaults(decoded.value).routes;
    return c, None;
  }
}

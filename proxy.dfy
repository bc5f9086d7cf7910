/** Route registration and reverse-proxy construction (app/proxy/proxy.go).

    Request forwarding itself is library behaviour and is not modelled: a
    `ReverseProxy` records only its target and the transport settings the
    gateway chooses. */
module Proxy {
  import opened Wrappers
  import opened GoTime
  import opened Url
  import Config

  /** The `http.Transport` fields `newReverseProxy` sets. */
  datatype Transport = Transport(
    proxyFromEnvironment: bool,
    dialTimeout: Duration,
    responseHeaderTimeout: Duration,
    tlsHandshakeTimeout: Duration)

  /** `httputil.NewSingleHostReverseProxy(target)` with its `Transport` replaced. */
  datatype ReverseProxy = ReverseProxy(target: URL, transport: Transport)

  const ParseTargetPrefix: string := "failed to parse target URL: "
  const CreateProxyPrefix: string := "proxy: failed to create a reverse proxy for route "

  /** `newReverseProxy`: fails exactly when the target does not parse;
      otherwise every transport timeout is `timeout` seconds. */
  function NewReverseProxy(lib: Library, target: string, timeout: Int64): (r: Result<ReverseProxy>)
    ensures r.Success? <==> lib.parse(target).Success?
    ensures r.Failure? ==> r.error == ParseTargetPrefix + lib.parse(target).error
    ensures r.Success? ==>
      && r.value.target == lib.parse(target).value
      && r.value.transport.proxyFromEnvironment
      && r.value.transport.dialTimeout == Seconds(timeout)
      && r.value.transport.responseHeaderTimeout == Seconds(timeout)
      && r.value.transport.tlsHandshakeTimeout == Seconds(timeout)
  {
    match lib.parse(target)
    case Failure(e) => Failure(ParseTargetPrefix + e)
    case Success(u) =>
      var d := Seconds(timeout);
      Success(ReverseProxy(u, Transport(true, d, d, d)))
  }

  /** The error `SetProxy` returns for a route whose proxy could not be built. */
  function RouteError(path: string, cause: string): (e: string)
    ensures |e| == |CreateProxyPrefix| + |path| + 2 + |cause|
    ensures e[..|CreateProxyPrefix|] == CreateProxyPrefix
    ensures e[|CreateProxyPrefix|..|CreateProxyPrefix| + |path|] == path
    ensures e[|e| - |cause|..] == cause
  {
    CreateProxyPrefix + path + ": " + cause
  }

  /** `http.ServeMux`, reduced to its pattern table. */
  class ServeMux {
    var handlers: map<string, ReverseProxy>

    constructor ()
      ensures handlers == map[]
    {
      handlers := map[];
    }

    /** `Handle` panics on an empty pattern or one already registered, so
        callers must avoid both. */
    method Handle(pattern: string, handler: ReverseProxy)
      requires pattern != "" && pattern !in handlers
      modifies this
      ensures handlers == old(handlers)[pattern := handler]
    {
      handlers := handlers[pattern := handler];
    }
  }

  predicate Parses(lib: Library, route: Config.Route)
  {
    lib.parse(route.backend).Success?
  }

  /** The index of the first route whose backend does not parse, or the
      number of routes when every backend parses. */
  function FirstUnparsable(lib: Library, routes: seq<Config.Route>): (k: nat)
    ensures k <= |routes|
    ensures forall j :: 0 <= j < k ==> Parses(lib, routes[j])
    ensures k < |routes| ==> !Parses(lib, routes[k])
    decreases |routes|
  {
    if routes == [] || !Parses(lib, routes[0]) then 0
    else 1 + FirstUnparsable(lib, routes[1..])
  }

  /** The registration table after `SetProxy`, and its error: routes are
      handled in order, and the first one that fails stops the walk. */
  function Register(lib: Library, handlers: map<string, ReverseProxy>, routes: seq<Config.Route>)
    : (map<string, ReverseProxy>, Option<string>)
    decreases |routes|
  {
    if routes == [] then (handlers, None)
    else
      var route := routes[0];
      match NewReverseProxy(lib, route.backend, route.timeout)
      case Failure(e) => (handlers, Some(RouteError(route.path, e)))
      case Success(p) => Register(lib, handlers[route.path := p], routes[1..])
  }

  /** The proxy `SetProxy` builds for a route whose backend parses. */
  function ProxyFor(lib: Library, route: Config.Route): ReverseProxy
    requires Parses(lib, route)
  {
    NewReverseProxy(lib, route.backend, route.timeout).value
  }

  /** The table after registering routes that all parse, in order. */
  function Installed(lib: Library, handlers: map<string, ReverseProxy>, routes: seq<Config.Route>)
    : map<string, ReverseProxy>
    requires forall j :: 0 <= j < |routes| ==> Parses(lib, routes[j])
    decreases |routes|
  {
    if routes == [] then handlers
    else Installed(lib, handlers[routes[0].path := ProxyFor(lib, routes[0])], routes[1..])
  }

  function Paths(routes: seq<Config.Route>): (ps: set<string>)
    ensures forall j :: 0 <= j < |routes| ==> routes[j].path in ps
    ensures forall p :: p in ps ==> exists j :: 0 <= j < |routes| && routes[j].path == p
  {
    set j | 0 <= j < |routes| :: routes[j].path
  }

  predicate DistinctPaths(routes: seq<Config.Route>)
  {
    forall i, j :: 0 <= i < j < |routes| ==> routes[i].path != routes[j].path
  }

  /** Registration stops at the first unparsable backend: everything before
      it stays registered, nothing after it is, and the error names its path. */
  lemma {:induction false} RegisterOutcome(lib: Library, handlers: map<string, ReverseProxy>, routes: seq<Config.Route>)
    ensures var k := FirstUnparsable(lib, routes);
      Register(lib, handlers, routes) ==
        if k == |routes| then (Installed(lib, handlers, routes), None)
        else (Installed(lib, handlers, routes[..k]),
              Some(RouteError(routes[k].path, ParseTargetPrefix + lib.parse(routes[k].backend).error)))
    decreases |routes|
  {
    if routes != [] && Parses(lib, routes[0]) {
      var h' := handlers[routes[0].path := ProxyFor(lib, routes[0])];
      RegisterOutcome(lib, h', routes[1..]);
      var k := FirstUnparsable(lib, routes);
      if k < |routes| {
        assert routes[..k][1..] == routes[1..][..k - 1];
      }
    }
  }

  /** Keys outside the registered paths keep whatever they had. */
  lemma {:induction false} InstalledOutside(lib: Library, handlers: map<string, ReverseProxy>, routes: seq<Config.Route>, key: string)
    requires forall j :: 0 <= j < |routes| ==> Parses(lib, routes[j])
    requires key !in Paths(routes)
    ensures key in Installed(lib, handlers, routes) <==> key in handlers
    ensures key in handlers ==> Installed(lib, handlers, routes)[key] == handlers[key]
    decreases |routes|
  {
    if routes != [] {
      assert Paths(routes[1..]) <= Paths(routes) by {
        forall p | p in Paths(routes[1..]) ensures p in Paths(routes) {
          var j :| 0 <= j < |routes[1..]| && routes[1..][j].path == p;
          assert routes[j + 1].path == p;
        }
      }
      InstalledOutside(lib, handlers[routes[0].path := ProxyFor(lib, routes[0])], routes[1..], key);
    }
  }

  /** With distinct paths that all parse, each route's path is bound to the
      proxy for its own backend, and no other key is added. */
  lemma {:induction false} InstalledLookup(lib: Library, handlers: map<string, ReverseProxy>, routes: seq<Config.Route>, i: nat)
    requires forall j :: 0 <= j < |routes| ==> Parses(lib, routes[j])
    requires DistinctPaths(routes)
    requires i < |routes|
    ensures routes[i].path in Installed(lib, handlers, routes)
    ensures Installed(lib, handlers, routes)[routes[i].path] == ProxyFor(lib, routes[i])
    decreases |routes|
  {
    var h' := handlers[routes[0].path := ProxyFor(lib, routes[0])];
    if i == 0 {
      assert forall j :: 0 <= j < |routes[1..]| ==> routes[1..][j].path != routes[0].path by {
        forall j | 0 <= j < |routes[1..]| ensures routes[1..][j].path != routes[0].path {
          assert routes[1..][j] == routes[j + 1];
        }
      }
      InstalledOutside(lib, h', routes[1..], routes[0].path);
    } else {
      InstalledLookup(lib, h', routes[1..], i - 1);
    }
  }

  /** The keys after registration are the old keys plus the routes' paths. */
  lemma {:induction false} InstalledKeys(lib: Library, handlers: map<string, ReverseProxy>, routes: seq<Config.Route>)
    requires forall j :: 0 <= j < |routes| ==> Parses(lib, routes[j])
    ensures Installed(lib, handlers, routes).Keys == handlers.Keys + Paths(routes)
    decreases |routes|
  {
    if routes != [] {
      InstalledKeys(lib, handlers[routes[0].path := ProxyFor(lib, routes[0])], routes[1..]);
      assert Paths(routes) == {routes[0].path} + Paths(routes[1..]) by {
        forall p | p in Paths(routes) ensures p in {routes[0].path} + Paths(routes[1..]) {
          var j :| 0 <= j < |routes| && routes[j].path == p;
          if j > 0 { assert routes[1..][j - 1].path == p; }
        }
      }
    }
  }

  /** When every backend parses, registration succeeds and binds each path
      to the proxy for that route's own backend, adding no other key. */
  lemma RegisterAll(lib: Library, handlers: map<string, ReverseProxy>, routes: seq<Config.Route>)
    requires forall j :: 0 <= j < |routes| ==> Parses(lib, routes[j])
    requires DistinctPaths(routes)
    ensures Register(lib, handlers, routes).1 == None
    ensures Register(lib, handlers, routes).0.Keys == handlers.Keys + Paths(routes)
    ensures forall j :: 0 <= j < |routes| ==>
      Register(lib, handlers, routes).0[routes[j].path] == ProxyFor(lib, routes[j])
  {
    RegisterOutcome(lib, handlers, routes);
    InstalledKeys(lib, handlers, routes);
    forall j | 0 <= j < |routes|
      ensures Register(lib, handlers, routes).0[routes[j].path] == ProxyFor(lib, routes[j])
    {
      InstalledLookup(lib, handlers, routes, j);
    }
  }

  /** When the route at index k is the first whose backend does not parse,
      registration fails with an error naming its path; the routes before it
      stay registered (there is no rollback) and no later route is. */
  lemma RegisterPartial(lib: Library, handlers: map<string, ReverseProxy>, routes: seq<Config.Route>, k: nat)
    requires k == FirstUnparsable(lib, routes) && k < |routes|
    requires DistinctPaths(routes[..k])
    ensures Register(lib, handlers, routes).1
         == Some(RouteError(routes[k].path, ParseTargetPrefix + lib.parse(routes[k].backend).error))
    ensures Register(lib, handlers, routes).0.Keys == handlers.Keys + Paths(routes[..k])
    ensures forall j :: 0 <= j < k ==>
      Register(lib, handlers, routes).0[routes[j].path] == ProxyFor(lib, routes[j])
  {
    RegisterOutcome(lib, handlers, routes);
    var done := routes[..k];
    InstalledKeys(lib, handlers, done);
    forall j | 0 <= j < k
      ensures Register(lib, handlers, routes).0[routes[j].path] == ProxyFor(lib, routes[j])
    {
      assert done[j] == routes[j];
      InstalledLookup(lib, handlers, done, j);
    }
  }

  /** An empty route list registers nothing and succeeds. */
  lemma RegisterNothing(lib: Library, handlers: map<string, ReverseProxy>)
    ensures Register(lib, handlers, []) == (handlers, None)
  {
  }

  /** `SetProxy`: registers a proxy for each route in order and returns the
      error of the first route whose backend does not parse, leaving the
      routes before it registered. `Handle` panics on an empty or repeated
      pattern, so the routes it reaches (those before the first unparsable
      backend) must have distinct, non-empty, unregistered paths. */
  method SetProxy(lib: Library, mux: ServeMux, routes: seq<Config.Route>) returns (err: Option<string>)
    requires var k := FirstUnparsable(lib, routes);
      && (forall j :: 0 <= j < k ==> routes[j].path != "" && routes[j].path !in mux.handlers)
      && DistinctPaths(routes[..k])
    modifies mux
    ensures (mux.handlers, err) == Register(lib, old(mux.handlers), routes)
  {
    ghost var k := FirstUnparsable(lib, routes);
    var i := 0;
    while i < |routes|
      invariant 0 <= i <= k
      invariant Register(lib, old(mux.handlers), routes) == Register(lib, mux.handlers, routes[i..])
      invariant forall j :: i <= j < k ==> routes[j].path !in mux.handlers
    {
      var route := routes[i];
      assert routes[i..][1..] == routes[i + 1..];
      var proxy := NewReverseProxy(lib, route.backend, route.timeout);
      if proxy.Failure? {
        return Some(RouteError(route.path, proxy.error));
      }
      assert i < k;
      assert forall j :: i < j < k ==> routes[j].path != route.path by {
        forall j | i < j < k ensures routes[j].path != route.path {
          assert routes[..k][i] == route && routes[..k][j] == routes[j];
        }
      }
      mux.Handle(route.path, proxy.value);
      i := i + 1;
    }
    return None;
  }
}

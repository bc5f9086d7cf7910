# hurrah, modelled in Dafny

hurrah is a small HTTP API gateway. It reads a list of routes, each one a path, a backend URL, a timeout and an optional health-check path. It registers a reverse proxy for each route on an `http.ServeMux`, and it can poll a backend's health endpoint on a ticker. This project models the parts of it that have logic of their own, and proves properties about them:

- middleware composition (`app/middleware/middleware.go`), in `middleware.dfy`, module `Middleware`;
- route registration and reverse-proxy construction (`app/proxy/proxy.go`), in `proxy.dfy`, module `Proxy`;
- the per-tick health-check loop (`app/proxy/health_check.go`), in `health_check.dfy`, module `HealthCheck`;
- configuration defaulting and the health-check URL (`config/config.go`), in `config.dfy`, module `Config`;
- version selection (`config/version.go`), in `version.dfy`, module `Version`;
- the listen address and the startup routing summary (`cmd/hurrah/main.go`), in `main.dfy`, module `Hurrah`.

Three support modules sit beside these:

- `wrappers.dfy` defines `Option` and `Result`. They stand for Go's `(value, ok)` and `(value, error)` pairs.
- `gotime.dfy` defines `int64` and `time.Duration`. It writes out the wrap-around of `time.Duration(t) * time.Second`.
- `url.dfy` stands for `net/url`. Parsing, reference resolution (section 5.2 of RFC 3986) and formatting are passed in as a record of functions, `Url.Library`. Every property here therefore holds for any URL parser and resolver.

How each part is modelled:

- **Handlers.** A handler is a function from a request to an `Outcome`: the ordered trace of effects it had, and the error it returned, if any. A middleware is a function from handler to handler. `Chain` is the source's loop, proved equal to the fold `Wrapped`. The lemmas are about `Wrapped`. The stage `Tracing(name)` records entering, calls next, then records leaving; the order lemmas use it.
- **Registration.** `ServeMux` is a class with a map from pattern to proxy. `SetProxy` is the source's loop. Its result and the new table are proved equal to the pure function `Register`.
- **Health checks.** `PeriodicHealthCheck` loops over a finite sequence of ticks. Each tick says whether the context was already cancelled, and what that tick's probe would observe.
- **Configuration.** `NewConfig` receives what the TOML decoder produced, or its error. It then updates the `Routes` array of a fresh `Config` object in place. The result is proved equal to the pure function `WithDefaults`.

Where the code and its documentation disagree, the model follows the code:

- The doc comment of `Chain` (app/middleware/middleware.go:19) says the middlewares run "in the order they are passed". The loop does the opposite: each middleware wraps the ones before it, so the **last** one passed is outermost and runs first. `TwoStagesNest` proves this. `ReversedRunsInWrittenOrder` shows how to make the first-passed stage outermost: pass the list reversed.
- `Flag.Port` is declared `int` in config/flag.go:10, but `port()` compares it with `""` and prefixes it with `":"` (cmd/hurrah/main.go:93-99). It is modelled as a string.
- config/config_test.go:17-22 expects a decoded config without any defaults. `NewConfig` fills them in (config/config.go:66-74), and the model follows that.
- `SetProxy` does not reject duplicate paths. `ServeMux.Handle` panics on one, and the model makes that a precondition. A bad backend leaves the earlier routes registered (`RegisterPartial`).
- `AdaptHandler` writes the 500 whether or not the handler already wrote (`AdaptWritesErrorIff`).
- Nothing in the source starts the health check, and the middleware chain is never applied to the proxies. Each is modelled on its own.

## Model

| member | source | states |
|---|---|---|
| `Middleware.Chain` | app/middleware/middleware.go:20-25 | the loop returns the fold `Wrapped` of the middlewares around the handler |
| `Middleware.WrappedNone` | app/middleware/middleware.go:20-25 | chaining no middleware returns the terminal handler unchanged |
| `Middleware.WrappedSnoc` | app/middleware/middleware.go:21-23 | `Chain(h, ms + [m]) == m(Chain(h, ms))`: the last middleware passed is outermost |
| `Middleware.WrappedAppend` | app/middleware/middleware.go:21-23 | chaining `xs` and then `ys` equals chaining `xs + ys` |
| `Middleware.TracedOrder` | app/middleware/middleware.go:20-25 | bracketing stages enter from the last-passed inwards, run the handler, then leave first-passed first; the handler's error comes back unchanged |
| `Middleware.TwoStagesNest` | app/middleware/middleware.go:19-24 | with stages [A, B] the trace is B-enter, A-enter, H, A-leave, B-leave, the reverse of the documented order |
| `Middleware.ReversedRunsInWrittenOrder` | app/middleware/middleware.go:19-24 | passing [A, B] reversed yields the documented order A-enter, B-enter, H, B-leave, A-leave |
| `Middleware.ToHandlerWithCtx` | app/middleware/middleware.go:28-33 | the lifted handler has exactly the wrapped handler's effects, once, and never returns an error |
| `Middleware.AdaptHandler` | app/middleware/middleware.go:37-45 | no error: nothing is added to the response; an error: it is logged, then `http.Error` is called with 500 and "Internal Server Error", after whatever the handler already wrote |
| `Middleware.AdaptLiftedIsIdentity` | app/middleware/middleware.go:28-45 | adapting a lifted plain handler gives back exactly that handler's effects, with no 500 |
| `Middleware.AdaptWritesErrorIff` | app/middleware/middleware.go:40-43 | the boundary's output holds a 500 exactly when the handler failed or had already written one itself |
| `Middleware.BasicAuth` | app/middleware/middleware.go:56-62 | for every next handler and request, the stage returns exactly what next returns, with the same effects |
| `Middleware.BasicAuthOutermostTransparent` | app/middleware/middleware.go:56-62 | appending the placeholder to a chain changes no outcome |
| `GoTime.Seconds` | app/proxy/proxy.go:40-43 | `time.Duration(t) * time.Second` is `t * 10^9` nanoseconds inside the `int64` range, and positive for positive `t` |
| `GoTime.SecondsWrapsBeyondMax` | app/proxy/proxy.go:40 | one second beyond that range, the duration wraps to a negative value |
| `Proxy.NewReverseProxy` | app/proxy/proxy.go:30-46 | fails iff the target does not parse, with the wrapped parse error; on success it targets the parsed URL and uses the environment proxy; the dial, response-header and TLS-handshake timeouts all equal `timeout` seconds |
| `Proxy.ServeMux.constructor` | cmd/hurrah/main.go:59 | `http.NewServeMux()` starts with no pattern registered |
| `Proxy.ServeMux.Handle` | app/proxy/proxy.go:23 | binds a new, non-empty pattern and changes no other binding |
| `Proxy.RouteError` | app/proxy/proxy.go:21 | the error text starts with "proxy: failed to create a reverse proxy for route ", then names the route's path, and ends with the wrapped cause |
| `Proxy.FirstUnparsable` | app/proxy/proxy.go:18-22 | the first index whose backend fails to parse; every earlier backend parses |
| `Proxy.SetProxy` | app/proxy/proxy.go:17-27 | the loop leaves the mux and returns the error exactly as `Register` computes them from the routes in order |
| `Proxy.RegisterOutcome` | app/proxy/proxy.go:18-26 | registration installs the routes before the first unparsable backend and returns that route's error; with no such route it installs all of them and returns nil |
| `Proxy.RegisterAll` | app/proxy/proxy.go:18-26 | when every backend parses there is no error, each path is bound to the proxy for its own backend, and no other key is added |
| `Proxy.RegisterPartial` | app/proxy/proxy.go:18-23 | at the first unparsable backend the error names that route's path; when the routes before it have distinct paths, they stay bound to their proxies, and the keys are the old keys plus exactly their paths, so no later route is registered |
| `Proxy.RegisterNothing` | app/proxy/proxy.go:17-27 | an empty route list registers nothing and returns nil |
| `Proxy.InstalledLookup` | app/proxy/proxy.go:18-25 | with distinct paths that all parse, each route's path maps to the proxy for that route |
| `Proxy.InstalledKeys` | app/proxy/proxy.go:18-25 | the registered keys are the old keys plus the routes' paths |
| `HealthCheck.Classify` | app/proxy/health_check.go:27-44 | a probe is logged as healthy (info) iff its status is exactly 200; another status is an error carrying that status; request and transport errors are errors carrying their text |
| `HealthCheck.FirstCancelled` | app/proxy/health_check.go:17-21 | the first tick whose context is cancelled; no earlier tick is cancelled |
| `HealthCheck.PeriodicHealthCheck` | app/proxy/health_check.go:13-47 | one probe with a `timeout`-second client and one outcome entry per tick before the first cancelled tick, whatever the earlier outcomes were; that tick logs the stop and probes nothing |
| `HealthCheck.CancelIsFinal` | app/proxy/health_check.go:17-21 | ticks after the first cancelled tick have no influence |
| `HealthCheck.TwoHealthyThenCancelled` | app/proxy/health_check.go:17-44 | two 200 answers and then a cancellation give two probes, both healthy, then the stop |
| `HealthCheck.TwoHealthyThenCancelledRun` | app/proxy/health_check.go:17-44 | running the loop on two 200 answers and then a cancellation gives two probes, two healthy entries and then the stop entry, and reports the loop as stopped |
| `Config.HealthCheckEnabled` | config/config.go:26-28 | enabled iff the health-check path is non-empty |
| `Config.HealthCheckURL` | config/config.go:31-44 | error order: not enabled, then unparsable backend, then unresolvable path; otherwise the resolved URL's string |
| `Config.HealthCheckURLDisabledIgnoresBackend` | config/config.go:32-34 | a disabled check fails identically for any backend and URL library, so the backend is never parsed |
| `Config.HealthCheckURLSuccessIff` | config/config.go:31-44 | a URL is returned iff the check is enabled, the backend parses and the path resolves |
| `Config.WithDefaultTimeout` | config/config.go:71-73 | the result's timeout is positive; a positive timeout is kept; a non-positive one becomes `DefaultTimeout` (30); nothing else in the route changes |
| `Config.WithDefaults` | config/config.go:66-74 | an empty port becomes ":8080", a non-empty one is kept; debug, the number and order of routes are kept; each route gets the timeout default |
| `Config.WithDefaultsEstablishes` | config/config.go:66-74 | after defaulting the port is non-empty and every route's timeout is positive; path, backend and health-check path are unchanged |
| `Config.WithDefaultsIdempotent` | config/config.go:66-74 | defaulting twice equals defaulting once |
| `Config.Config.Decoded` | config/config.go:61-62 | the object holds exactly the decoded configuration, in a fresh routes array |
| `Config.NewConfig` | config/config.go:60-76 | a decode error is returned wrapped, with no config; otherwise the fresh config's value, after the in-place loop, is `WithDefaults` of the decoded one |
| `Version.GetVersion` | config/version.go:18-26 | the link-time version if non-empty; else the build-info main version if there is build info; else "unknown" |
| `Version.LinkedVersionIgnoresBuildInfo` | config/version.go:20-22 | with a link-time version set, the build info does not affect the result |
| `Version.EmptyVersionIff` | config/version.go:18-26 | the result is empty iff no link-time version is set and the build info reports an empty version |
| `Hurrah.WithColon` | cmd/hurrah/main.go:87-90 | the result starts with ":"; a port already starting with ":" is kept; otherwise ":" is prepended |
| `Hurrah.WithColonIdempotent` | cmd/hurrah/main.go:87-99 | ":" is never prepended twice |
| `Hurrah.Port` | cmd/hurrah/main.go:85-100 | always ":"-prefixed; a non-empty config port wins; then a non-empty flag port; with both empty, ":8080" |
| `Hurrah.ConfigPortWins` | cmd/hurrah/main.go:86-91 | with a non-empty config port, the flag port does not affect the address |
| `Hurrah.FlagPortUnusedAfterDefaults` | cmd/hurrah/main.go:86-91 | after `NewConfig` defaulting, the address depends only on the config port |
| `Hurrah.FormatInt` | cmd/hurrah/main.go:110 | the `%d` rendering: a "-" exactly when the number is negative, then only decimal digits, with no leading zero unless the number is 0 |
| `Hurrah.FormatIntInverse` | cmd/hurrah/main.go:110 | the `%d` rendering of a timeout reads back as that timeout |
| `Hurrah.RouteLine` | cmd/hurrah/main.go:107-111 | one route's line is its path, then " -> ", then its backend, then " (timeout: " and the `%d` rendering of its timeout, then "[s]) " |
| `Hurrah.RoutingAppend` | cmd/hurrah/main.go:106-112 | the summary of two route lists is the concatenation of their summaries |
| `Hurrah.RoutingSingle` | cmd/hurrah/main.go:106-113 | no routes give ""; one route gives `path -> backend (timeout: N[s]) ` |
| `Hurrah.StartupRouting` | cmd/hurrah/main.go:105-113 | the builder loop yields the in-order concatenation of every route's line |

## Left out

- Request forwarding by `httputil.ReverseProxy` is not modelled: the director's URL rewriting, header handling, streaming, and the 502 on a backend timeout. A `ReverseProxy` here records only its target and its transport settings.
- `url.Parse`, `(*URL).Parse` and `(*URL).String` are parameters (`Url.Library`), not definitions, because their grammar is library behaviour.
- `http.ServeMux` is a map from pattern to proxy. Pattern matching at request time is not modelled. The panic on an empty or already-registered pattern is a precondition, and "already registered" means an identical pattern: Go's wider notion of conflicting patterns is not modelled.
- `http.Error` is one event carrying its status and text. The headers it sets and the newline it adds to the body are not modelled. Neither is what net/http does when the handler has already written: the `WriteHeader(500)` inside `http.Error` then has no effect, and only the text is appended to the body. The event records the call, not the status the client sees.
- The request context, the response writer and the request contents are not modelled beyond an opaque request record and the trace of effects.
- Log calls are modelled only where they are part of an operation's visible outcome: `AdaptHandler`'s error record and the health check's entries. The per-route debug log in `SetProxy` and the `slog.Debug` call in `logStartupInfo` are not modelled. Their other fields (version, flag port, config file, debug flag) and all log formatting are left out too.
- In the health check, the ticker, the interval, the goroutine, wall-clock time and real context cancellation are replaced by a finite sequence of ticks. Closing the response body is not modelled. The Go loop never ends unless cancelled; the model covers any finite prefix of ticks.
- `PeriodicHealthCheck`: whether building the request fails is given per tick. In Go it depends only on the backend string, so it is the same on every tick. The model allows more inputs than can occur, and its contract still holds for each of them.
- `BasicAuth` does no credential checking, because the source leaves it as a TODO (app/middleware/middleware.go:59).
- TOML decoding (`toml.DecodeFile`), flag parsing (config/flag.go), logger construction (config/slog.go), `main`, `run`, `newHurrah` and `ListenAndServe` are I/O wrappers and are not modelled.
- app/proxy/health_check_test.go:24 calls `periodicHealthCheck` with three arguments, but the function takes four. The model follows health_check.go.

/** Middleware composition (app/middleware/middleware.go).

    A handler is modelled as a function from a request to an `Outcome`: the
    ordered effects it had (writes to the response, stages entered and left,
    log records) and the error it returned, if any. The response writer and
    the request context are folded into the request and the trace. */
module Middleware {
  import opened Wrappers

  datatype Request = Request(verb: string, path: string, body: string)

  datatype Event =
    | Enter(stage: string)          // a stage starts, before calling next
    | Leave(stage: string)          // a stage finishes, after next returned
    | Wrote(data: string)           // a write to the response made by a handler
    | ErrorLogged(message: string, error: string)
    | HttpError(status: int, text: string)   // `http.Error(w, text, status)`

  datatype Outcome = Outcome(trace: seq<Event>, err: Option<string>)

  /** `HandlerWithCtx`: may fail with an error. */
  type Handler = Request -> Outcome
  /** `http.Handler`: its only result is what it did. */
  type HttpHandler = Request -> seq<Event>
  /** `Middleware`: wraps a handler. */
  type Middleware = Handler -> Handler

  const StatusInternalServerError: int := 500
  /** `http.StatusText(http.StatusInternalServerError)`. */
  const InternalServerErrorText: string := "Internal Server Error"
  const AdaptErrorMessage: string := "middleware: failed to handle the request"

  /** The handler `Chain(handler, ms...)` returns: each middleware wraps the
      result of the ones before it, so the last one passed is outermost. */
  function Wrapped(handler: Handler, ms: seq<Middleware>): Handler
    decreases |ms|
  {
    if ms == [] then handler else ms[|ms| - 1](Wrapped(handler, ms[..|ms| - 1]))
  }

  /** `Chain`: the loop that reassigns `handler` to `middleware(handler)`. */
  method Chain(handler: Handler, middlewares: seq<Middleware>) returns (h: Handler)
    ensures h == Wrapped(handler, middlewares)
  {
    h := handler;
    for i := 0 to |middlewares|
      invariant h == Wrapped(handler, middlewares[..i])
    {
      assert middlewares[..i + 1][..i] == middlewares[..i];
      h := middlewares[i](h);
    }
    assert middlewares[..|middlewares|] == middlewares;
  }

  /** Chaining no middleware returns the terminal handler itself. */
  lemma WrappedNone(handler: Handler)
    ensures Wrapped(handler, []) == handler
  {
  }

  /** Appending a middleware puts it outside everything chained before it. */
  lemma WrappedSnoc(handler: Handler, ms: seq<Middleware>, m: Middleware)
    ensures Wrapped(handler, ms + [m]) == m(Wrapped(handler, ms))
  {
  }

  /** Chaining in two steps is chaining the concatenated list. */
  lemma {:induction false} WrappedAppend(handler: Handler, xs: seq<Middleware>, ys: seq<Middleware>)
    ensures Wrapped(Wrapped(handler, xs), ys) == Wrapped(handler, xs + ys)
    decreases |ys|
  {
    if ys == [] {
      assert xs + ys == xs;
    } else {
      var init, last := ys[..|ys| - 1], ys[|ys| - 1];
      assert ys == init + [last];
      WrappedAppend(handler, xs, init);
      WrappedSnoc(Wrapped(handler, xs), init, last);
      assert xs + ys == (xs + init) + [last];
      WrappedSnoc(handler, xs + init, last);
    }
  }

  /** A stage that records entering, calls next, then records leaving, and
      passes next's error through. It stands for any wrapping middleware. */
  function Tracing(name: string): Middleware
  {
    (next: Handler) => (req: Request) =>
      var o := next(req);
      Outcome([Enter(name)] + o.trace + [Leave(name)], o.err)
  }

  /** One tracing stage per name, in the same order. */
  function Tracers(names: seq<string>): seq<Middleware>
    decreases |names|
  {
    if names == [] then [] else Tracers(names[..|names| - 1]) + [Tracing(names[|names| - 1])]
  }

  /** The `Enter` events of a chain of tracing stages, outermost first. */
  function Entries(names: seq<string>): seq<Event>
    decreases |names|
  {
    if names == [] then [] else [Enter(names[|names| - 1])] + Entries(names[..|names| - 1])
  }

  /** The `Leave` events of a chain of tracing stages, innermost first. */
  function Exits(names: seq<string>): seq<Event>
    decreases |names|
  {
    if names == [] then [] else Exits(names[..|names| - 1]) + [Leave(names[|names| - 1])]
  }

  /** Tracing stages nest with the last name outermost: its `Enter` comes
      first and its `Leave` last; the terminal handler runs in the middle and
      its error comes back unchanged. */
  lemma {:induction false} TracedOrder(handler: Handler, names: seq<string>, req: Request)
    ensures Wrapped(handler, Tracers(names))(req)
         == Outcome(Entries(names) + handler(req).trace + Exits(names), handler(req).err)
    decreases |names|
  {
    if names != [] {
      var init, last := names[..|names| - 1], names[|names| - 1];
      WrappedSnoc(handler, Tracers(init), Tracing(last));
      TracedOrder(handler, init, req);
    }
  }

  /** With stages [A, B] the trace is B-enter, A-enter, H, A-leave, B-leave:
      the reverse of the order in which they were passed. */
  lemma TwoStagesNest(handler: Handler, req: Request)
    ensures Wrapped(handler, [Tracing("A"), Tracing("B")])(req).trace
         == [Enter("B"), Enter("A")] + handler(req).trace + [Leave("A"), Leave("B")]
  {
  }

  function Reversed<T>(s: seq<T>): (r: seq<T>)
    ensures |r| == |s|
    ensures forall i :: 0 <= i < |s| ==> r[i] == s[|s| - 1 - i]
  {
    if s == [] then [] else [s[|s| - 1]] + Reversed(s[..|s| - 1])
  }

  /** To run stages in the order written (first one outermost), they must be
      passed to `Chain` reversed. */
  lemma ReversedRunsInWrittenOrder(handler: Handler, req: Request)
    ensures Wrapped(handler, Reversed([Tracing("A"), Tracing("B")]))(req).trace
         == [Enter("A"), Enter("B")] + handler(req).trace + [Leave("B"), Leave("A")]
  {
  }

  /** `ToHandlerWithCtx`: calls the wrapped handler once and reports no error. */
  function ToHandlerWithCtx(handler: HttpHandler): (h: Handler)
    ensures forall req :: h(req).err == None && h(req).trace == handler(req)
  {
    (req: Request) => Outcome(handler(req), None)
  }

  /** `AdaptHandler`: on an error, logs it and then writes a 500 response,
      whatever the handler already wrote; otherwise adds nothing. */
  function AdaptHandler(h: Handler): (a: HttpHandler)
    ensures forall req :: h(req).err == None ==> a(req) == h(req).trace
    ensures forall req :: h(req).err.Some? ==>
      a(req) == h(req).trace
        + [ErrorLogged(AdaptErrorMessage, h(req).err.value),
           HttpError(StatusInternalServerError, InternalServerErrorText)]
  {
    (req: Request) =>
      var o := h(req);
      match o.err
      case None => o.trace
      case Some(e) =>
        o.trace + [ErrorLogged(AdaptErrorMessage, e),
                   HttpError(StatusInternalServerError, InternalServerErrorText)]
  }

  /** Adapting a lifted plain handler gives back exactly its effects: the
      boundary never writes a 500 for it. */
  lemma AdaptLiftedIsIdentity(handler: HttpHandler, req: Request)
    ensures AdaptHandler(ToHandlerWithCtx(handler))(req) == handler(req)
  {
  }

  /** The output holds a 500 exactly when the handler failed or had
      already written one. */
  lemma AdaptWritesErrorIff(h: Handler, req: Request)
    ensures HttpError(StatusInternalServerError, InternalServerErrorText) in AdaptHandler(h)(req)
        <==> h(req).err.Some? || HttpError(StatusInternalServerError, InternalServerErrorText) in h(req).trace
  {
  }

  /** `BasicAuth`: a placeholder that calls next and returns what it returns. */
  function BasicAuth(): (m: Middleware)
    ensures forall next: Handler, req: Request :: m(next)(req) == next(req)
  {
    (next: Handler) => (req: Request) => next(req)
  }

  /** Adding the placeholder as outermost stage changes no observable outcome. */
  lemma BasicAuthOutermostTransparent(handler: Handler, ms: seq<Middleware>, req: Request)
    ensures Wrapped(handler, ms + [BasicAuth()])(req) == Wrapped(handler, ms)(req)
  {
  }
}

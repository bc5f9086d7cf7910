/** The listen address and the startup routing summary of the `hurrah`
    command (cmd/hurrah/main.go). The flag port is taken as a string, as
    `port()` uses it. */
module Hurrah {
  import Config

  predicate HasColonPrefix(s: string)
  {
    |s| > 0 && s[0] == ':'
  }

  /** Prefixes ":" unless the port already starts with it. */
  function WithColon(port: string): (addr: string)
    ensures HasColonPrefix(addr)
    ensures HasColonPrefix(port) ==> addr == port
    ensures !HasColonPrefix(port) ==> addr == ":" + port
  {
    if HasColonPrefix(port) then port else ":" + port
  }

  /** A ":" is never prepended twice. */
  lemma WithColonIdempotent(port: string)
    ensures WithColon(WithColon(port)) == WithColon(port)
  {
  }

  /** `hurrah.port()`: the configured port, else the flag port, else
      `DefaultPort`, always as ":"-prefixed address. */
  function Port(configPort: string, flagPort: string): (addr: string)
    ensures HasColonPrefix(addr)
    ensures configPort != "" ==> addr == WithColon(configPort)
    ensures configPort == "" && flagPort != "" ==> addr == WithColon(flagPort)
    ensures configPort == "" && flagPort == "" ==> addr == Config.DefaultPort
  {
    if configPort != "" then WithColon(configPort)
    else if flagPort == "" then Config.DefaultPort
    else WithColon(flagPort)
  }

  /** A configured port wins over any flag port. */
  lemma ConfigPortWins(configPort: string, flag1: string, flag2: string)
    requires configPort != ""
    ensures Port(configPort, flag1) == Port(configPort, flag2)
  {
  }

  /** After `NewConfig` has filled in its defaults the flag port is never
      consulted: the address comes from the configuration alone. */
  lemma FlagPortUnusedAfterDefaults(c: Config.ConfigData, flagPort: string)
    ensures Port(Config.WithDefaults(c).server.port, flagPort)
         == WithColon(Config.WithDefaults(c).server.port)
  {
  }

  function DigitChar(d: nat): (c: char)
    requires d < 10
  {
    "0123456789"[d]
  }

  function DigitValue(c: char): nat
  {
    if '0' <= c <= '9' then (c - '0') as nat else 0
  }

  /** The decimal digits of `n`, most significant first. */
  function Digits(n: nat): (s: string)
    ensures |s| > 0
    ensures forall i :: 0 <= i < |s| ==> '0' <= s[i] <= '9'
    ensures |s| > 1 ==> s[0] != '0'
    decreases n
  {
    if n < 10 then [DigitChar(n)] else Digits(n / 10) + [DigitChar(n % 10)]
  }

  /** `fmt.Sprintf("%d", n)`. */
  function FormatInt(n: int): (s: string)
    ensures |s| > 0
    ensures s[0] == '-' <==> n < 0
    ensures forall i :: (if n < 0 then 1 else 0) <= i < |s| ==> '0' <= s[i] <= '9'
    ensures |s| > (if n < 0 then 2 else 1) ==> s[if n < 0 then 1 else 0] != '0'
  {
    if n < 0 then "-" + Digits(-n) else Digits(n)
  }

  function ParseDigits(s: string): nat
    decreases |s|
  {
    if s == [] then 0 else 10 * ParseDigits(s[..|s| - 1]) + DigitValue(s[|s| - 1])
  }

  function ParseInt(s: string): int
  {
    if |s| > 0 && s[0] == '-' then -(ParseDigits(s[1..]) as int) else ParseDigits(s)
  }

  lemma {:induction false} ParseDigitsInverse(n: nat)
    ensures ParseDigits(Digits(n)) == n
    decreases n
  {
    if n >= 10 {
      var s := Digits(n);
      assert s[..|s| - 1] == Digits(n / 10);
      ParseDigitsInverse(n / 10);
    }
  }

  /** The timeout in the routing summary reads back as the configured value. */
  lemma FormatIntInverse(n: int)
    ensures ParseInt(FormatInt(n)) == n
  {
    if n < 0 {
      var d := Digits(-n);
      assert FormatInt(n) == "-" + d;
      assert ("-" + d)[1..] == d;
      ParseDigitsInverse(-n);
    } else {
      ParseDigitsInverse(n);
    }
  }

  const Arrow: string := " -> "
  const TimeoutOpen: string := " (timeout: "
  const TimeoutClose: string := "[s])"
  const Separator: string := " "

  /** One route's part of the routing summary. */
  function RouteLine(route: Config.Route): (line: string)
    ensures |line| == |route.path| + |Arrow| + |route.backend| + |TimeoutOpen|
                      + |FormatInt(route.timeout)| + |TimeoutClose| + |Separator|
    ensures line[..|route.path|] == route.path
    ensures line[|route.path|..|route.path| + |Arrow|] == Arrow
    ensures line[|route.path| + |Arrow|..|route.path| + |Arrow| + |route.backend|] == route.backend
    ensures line[|route.path| + |Arrow| + |route.backend|..|line| - |TimeoutClose + Separator|]
         == TimeoutOpen + FormatInt(route.timeout)
    ensures line[|line| - |TimeoutClose + Separator|..] == TimeoutClose + Separator
  {
    route.path + Arrow + route.backend + TimeoutOpen + FormatInt(route.timeout) + TimeoutClose + Separator
  }

  /** The concatenation of `line(x)` for every `x`, in order. */
  function ConcatMap<T>(line: T -> string, xs: seq<T>): string
    decreases |xs|
  {
    if xs == [] then "" else ConcatMap(line, xs[..|xs| - 1]) + line(xs[|xs| - 1])
  }

  lemma {:induction false} ConcatMapAppend<T>(line: T -> string, xs: seq<T>, ys: seq<T>)
    ensures ConcatMap(line, xs + ys) == ConcatMap(line, xs) + ConcatMap(line, ys)
    decreases |ys|
  {
    if ys == [] {
      assert xs + ys == xs;
    } else {
      assert (xs + ys)[..|xs + ys| - 1] == xs + ys[..|ys| - 1];
      ConcatMapAppend(line, xs, ys[..|ys| - 1]);
    }
  }

  /** The routing summary: every route's line, in order. */
  function Routing(routes: seq<Config.Route>): string
  {
    ConcatMap(RouteLine, routes)
  }

  /** The summary of two route lists is the concatenation of their summaries. */
  lemma RoutingAppend(xs: seq<Config.Route>, ys: seq<Config.Route>)
    ensures Routing(xs + ys) == Routing(xs) + Routing(ys)
  {
    ConcatMapAppend(RouteLine, xs, ys);
  }

  /** The summary of a single route is its line; of no route, "". */
  lemma RoutingSingle(route: Config.Route)
    ensures Routing([]) == ""
    ensures Routing([route]) == RouteLine(route)
  {
  }

  lemma RoutingSnoc(routes: seq<Config.Route>, i: nat)
    requires i < |routes|
    ensures Routing(routes[..i + 1]) == Routing(routes[..i]) + RouteLine(routes[i])
  {
    assert routes[..i + 1][..i] == routes[..i];
  }

  /** Writing a route's pieces one after another appends its line. */
  lemma AppendPieces(before: string, route: Config.Route)
    ensures before + route.path + Arrow + route.backend + TimeoutOpen + FormatInt(route.timeout) + TimeoutClose + Separator
         == before + RouteLine(route)
  {
  }

  /** The `strings.Builder` loop of `logStartupInfo`. */
  method StartupRouting(routes: seq<Config.Route>) returns (routing: string)
    ensures routing == Routing(routes)
  {
    routing := "";
    for i := 0 to |routes|
      invariant routing == Routing(routes[..i])
    {
      var route := routes[i];
      ghost var before := routing;
      routing := routing + route.path;
      routing := routing + Arrow;
      routing := routing + route.backend;
      routing := routing + TimeoutOpen + FormatInt(route.timeout) + TimeoutClose;
      routing := routing + Separator;
      AppendPieces(before, route);
      RoutingSnoc(routes, i);
    }
    assert routes[..|routes|] == routes;
  }
}

/** The per-tick logic of the periodic health check
    (app/proxy/health_check.go). The ticker and the context are replaced by a
    finite sequence of ticks, each saying whether the context was already
    cancelled when it fired and what the probe on that tick would see. */
module HealthCheck {
  import opened GoTime

  /** What one probe attempt observed. */
  datatype ProbeResult =
    | RequestError(error: string)    // `http.NewRequestWithContext` failed
    | TransportError(error: string)  // `client.Do` failed
    | Responded(status: int)         // a response arrived with this status

  datatype Tick = Tick(cancelled: bool, result: ProbeResult)

  /** The client a probe uses: its target and its `Timeout`. */
  datatype Probe = Probe(backend: string, clientTimeout: Duration)

  datatype Level = Info | Error

  datatype Detail = NoDetail | ErrorText(error: string) | Status(code: int)

  datatype LogEntry = LogEntry(level: Level, message: string, backend: string, detail: Detail)

  const StatusOK: int := 200

  const StoppedMessage: string := "proxy: health check stopped"
  const RequestErrorMessage: string := "proxy: failed to create a health check request"
  const TransportErrorMessage: string := "proxy: periodic health check failed"
  const HealthyMessage: string := "proxy: backend is healthy"
  const UnhealthyMessage: string := "proxy: backend health check failed"

  /** The log entry for one probe: healthy exactly when the status is 200;
      request and transport errors and other statuses are errors. */
  function Classify(backend: string, result: ProbeResult): (e: LogEntry)
    ensures e.backend == backend
    ensures e.level == Info <==> result == Responded(StatusOK)
    ensures result == Responded(StatusOK) ==> e.message == HealthyMessage && e.detail == NoDetail
    ensures result.Responded? && result.status != StatusOK ==>
      e.message == UnhealthyMessage && e.detail == Status(result.status)
    ensures result.RequestError? ==> e.message == RequestErrorMessage && e.detail == ErrorText(result.error)
    ensures result.TransportError? ==> e.message == TransportErrorMessage && e.detail == ErrorText(result.error)
  {
    match result
    case RequestError(err) => LogEntry(Error, RequestErrorMessage, backend, ErrorText(err))
    case TransportError(err) => LogEntry(Error, TransportErrorMessage, backend, ErrorText(err))
    case Responded(status) =>
      if status == StatusOK then LogEntry(Info, HealthyMessage, backend, NoDetail)
      else LogEntry(Error, UnhealthyMessage, backend, Status(status))
  }

  /** The index of the first tick on which the context was cancelled, or the
      number of ticks if it never was. */
  function FirstCancelled(ticks: seq<Tick>): (k: nat)
    ensures k <= |ticks|
    ensures forall j :: 0 <= j < k ==> !ticks[j].cancelled
    ensures k < |ticks| ==> ticks[k].cancelled
    decreases |ticks|
  {
    if ticks == [] || ticks[0].cancelled then 0 else 1 + FirstCancelled(ticks[1..])
  }

  /** `periodicHealthCheck` over the given ticks. Every tick before the first
      cancelled one builds one client with `timeout` seconds and logs exactly
      one outcome, whatever the previous outcomes were; the first cancelled
      tick logs the stop and ends the loop without probing. */
  method PeriodicHealthCheck(backend: string, timeout: Int64, ticks: seq<Tick>)
    returns (log: seq<LogEntry>, probes: seq<Probe>, stopped: bool)
    ensures var k := FirstCancelled(ticks);
      && stopped == (k < |ticks|)
      && |probes| == k
      && (forall j :: 0 <= j < k ==> probes[j] == Probe(backend, Seconds(timeout)))
      && |log| == (if stopped then k + 1 else k)
      && (forall j :: 0 <= j < k ==> log[j] == Classify(backend, ticks[j].result))
      && (stopped ==> log[k] == LogEntry(Info, StoppedMessage, backend, NoDetail))
  {
    log, probes, stopped := [], [], false;
    var i := 0;
    while i < |ticks|
      invariant 0 <= i <= |ticks|
      invariant forall j :: 0 <= j < i ==> !ticks[j].cancelled
      invariant |probes| == i && |log| == i
      invariant forall j :: 0 <= j < i ==> probes[j] == Probe(backend, Seconds(timeout))
      invariant forall j :: 0 <= j < i ==> log[j] == Classify(backend, ticks[j].result)
    {
      if ticks[i].cancelled {
        log := log + [LogEntry(Info, StoppedMessage, backend, NoDetail)];
        stopped := true;
        return;
      }
      probes := probes + [Probe(backend, Seconds(timeout))];
      log := log + [Classify(backend, ticks[i].result)];
      i := i + 1;
    }
  }

  /** Ticks after the first cancelled one have no effect. */
  lemma {:induction false} CancelIsFinal(ticks: seq<Tick>, later: seq<Tick>)
    requires FirstCancelled(ticks) < |ticks|
    ensures FirstCancelled(ticks + later) == FirstCancelled(ticks)
    decreases |ticks|
  {
    if !ticks[0].cancelled {
      assert (ticks + later)[1..] == ticks[1..] + later;
      CancelIsFinal(ticks[1..], later);
    }
  }

  /** Backends answering 200 twice and then a cancellation: two probes, two
      healthy entries, then the stop. */
  lemma TwoHealthyThenCancelled(backend: string, r: ProbeResult)
    ensures var ticks := [Tick(false, Responded(200)), Tick(false, Responded(200)), Tick(true, r)];
      FirstCancelled(ticks) == 2
      && Classify(backend, ticks[0].result).level == Info
      && Classify(backend, ticks[1].result).level == Info
  {
    var ticks := [Tick(false, Responded(200)), Tick(false, Responded(200)), Tick(true, r)];
    assert ticks[1..] == [Tick(false, Responded(200)), Tick(true, r)];
    assert ticks[1..][1..] == [Tick(true, r)];
    assert FirstCancelled(ticks[1..][1..]) == 0;
    assert FirstCancelled(ticks[1..]) == 1;
  }

  /** The loop itself on two 200 answers and then a cancellation: two
      probes, two healthy entries, then the stop entry. */
  method TwoHealthyThenCancelledRun(backend: string, timeout: Int64, r: ProbeResult)
    returns (log: seq<LogEntry>, probes: seq<Probe>, stopped: bool)
    ensures stopped && |probes| == 2 && |log| == 3
    ensures log[0] == log[1] == LogEntry(Info, HealthyMessage, backend, NoDetail)
    ensures log[2] == LogEntry(Info, StoppedMessage, backend, NoDetail)
  {
    var ticks := [Tick(false, Responded(200)), Tick(false, Responded(200)), Tick(true, r)];
    TwoHealthyThenCancelled(backend, r);
    log, probes, stopped := PeriodicHealthCheck(backend, timeout, ticks);
  }
}

/** Container lifecycle events, and what the event-driven detectors remember about them. */
module Events {
  import opened Base

  /** The container's nodux.* labels, parsed. */
  datatype Labels = Labels(
    exitIgnore: Option<seq<int>>,    // nodux.exit.ignore
    threshold: Option<int>,          // nodux.crashloop.threshold, positive
    window: Option<Time>)            // nodux.crashloop.window, if positive

  /** What can happen to a container, as far as the model tells it apart. */
  datatype Action = Create | Start | Kill | OOM | Die | Destroy | HealthStatus

  datatype ContainerEvent = ContainerEvent(
    id: string,
    name: string,
    action: Action,
    exitCode: int,
    signal: int,      // 0 if unknown
    stopSignal: int,  // 0 if unknown
    time: Time,
    labels: Labels)

  const SIGINT := 2
  const SIGQUIT := 3
  const SIGKILL := 9
  const SIGTERM := 15

  /** A kill asks for a stop unless its signal is known to mean something else. */
  predicate IsStopRequest(ev: ContainerEvent) {
    ev.signal == 0 || ev.signal == SIGINT || ev.signal == SIGQUIT || ev.signal == SIGKILL || ev.signal == SIGTERM
    || ev.signal == ev.stopSignal
  }

  predicate IsStop(ev: ContainerEvent) {
    ev.action == Kill && IsStopRequest(ev)
  }

  /** A new run of the container begins, or there won't be another. */
  predicate IsReset(ev: ContainerEvent) {
    ev.action == Start || ev.action == Destroy
  }

  /**
   A stop is a kill with an unknown signal, with INT, QUIT, KILL or TERM, or with the container's own stop signal; a start
   or a destroy takes it back.
   */
  lemma StopIs(ev: ContainerEvent)
    ensures IsStop(ev) <==> ev.action == Kill && ev.signal in {0, 2, 3, 9, 15, ev.stopSignal}
    ensures IsReset(ev) <==> ev.action in {Start, Destroy}
  {
  }

  /** The containers a stop was requested for since they last started. */
  function Observe(stops: set<string>, ev: ContainerEvent): set<string> {
    if IsReset(ev) then stops - {ev.id}
    else if IsStop(ev) then stops + {ev.id}
    else stops
  }

  /** From the whole history: some event of the container satisfies p, and the container wasn't reset since. */
  ghost predicate SinceReset(h: seq<ContainerEvent>, id: string, p: ContainerEvent -> bool) {
    exists k :: 0 <= k < |h| && h[k].id == id && p(h[k])
                && forall j :: k < j < |h| && h[j].id == id ==> !IsReset(h[j])
  }

  lemma SinceResetStep(h: seq<ContainerEvent>, ev: ContainerEvent, id: string, p: ContainerEvent -> bool)
    requires p(ev) ==> !IsReset(ev)
    ensures SinceReset(h + [ev], id, p) <==>
      if ev.id != id then SinceReset(h, id, p) else !IsReset(ev) && (p(ev) || SinceReset(h, id, p))
  {
    var g := h + [ev];
    if ev.id == id && p(ev) {
      assert g[|h|] == ev;
    }
    if SinceReset(h, id, p) && (ev.id != id || !IsReset(ev)) {
      var k :| 0 <= k < |h| && h[k].id == id && p(h[k]) && forall j :: k < j < |h| && h[j].id == id ==> !IsReset(h[j]);
      assert g[k] == h[k];
    }
    if SinceReset(g, id, p) {
      var k :| 0 <= k < |g| && g[k].id == id && p(g[k]) && forall j :: k < j < |g| && g[j].id == id ==> !IsReset(g[j]);
      if k < |h| {
        assert h[k] == g[k];
        assert forall j :: k < j < |h| ==> g[j] == h[j];
      }
    }
  }

  function ObserveAll(h: seq<ContainerEvent>): set<string> {
    if h == [] then {} else Observe(ObserveAll(h[..|h| - 1]), h[|h| - 1])
  }

  /** The tracker's set says what the history says: a stop was requested and the container hasn't started since. */
  lemma {:induction false} StopsAreRequested(h: seq<ContainerEvent>, id: string)
    ensures id in ObserveAll(h) <==> SinceReset(h, id, IsStop)
    decreases |h|
  {
    if h != [] {
      var n := |h| - 1;
      StopsAreRequested(h[..n], id);
      assert h == h[..n] + [h[n]];
      SinceResetStep(h[..n], h[n], id, IsStop);
    }
  }
}

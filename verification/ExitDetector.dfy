/** Crashes: exits of a container that nobody asked for and that its exit code doesn't excuse. */
module Exits {
  import opened Base
  import opened Events

  datatype Memory = Memory(stops: set<string>, oomed: set<string>)

  const FRESH := Memory({}, {})

  datatype Config = Config(ignoreCodes: set<int>, skipOOM: bool)

  /** A crash, as reported. */
  datatype Crash = Crash(id: string, exitCode: int, oomKilled: bool, at: Time)

  predicate Ignored(cfg: Config, ev: ContainerEvent) {
    match ev.labels.exitIgnore
    case Some(codes) => ev.exitCode in codes
    case None => ev.exitCode in cfg.ignoreCodes
  }

  function Step(s: Memory, ev: ContainerEvent): Memory {
    Memory(Observe(s.stops, ev),
           if IsReset(ev) then s.oomed - {ev.id} else if ev.action == OOM then s.oomed + {ev.id} else s.oomed)
  }

  function Report(cfg: Config, s: Memory, ev: ContainerEvent): Option<Crash> {
    if ev.action != Die || ev.id in s.stops || (cfg.skipOOM && ev.id in s.oomed) || Ignored(cfg, ev) then None
    else Some(Crash(ev.id, ev.exitCode, ev.id in s.oomed, ev.time))
  }

  function After(h: seq<ContainerEvent>): Memory {
    if h == [] then FRESH else Step(After(h[..|h| - 1]), h[|h| - 1])
  }

  predicate IsOOM(ev: ContainerEvent) {
    ev.action == OOM
  }

  lemma {:induction false} AfterIsHistory(h: seq<ContainerEvent>, id: string)
    ensures id in After(h).stops <==> SinceReset(h, id, IsStop)
    ensures id in After(h).oomed <==> SinceReset(h, id, IsOOM)
    decreases |h|
  {
    if h != [] {
      var n := |h| - 1;
      AfterIsHistory(h[..n], id);
      assert h == h[..n] + [h[n]];
      SinceResetStep(h[..n], h[n], id, IsStop);
      SinceResetStep(h[..n], h[n], id, IsOOM);
    }
  }

  /** The container's own label goes before the configuration. */
  function IgnoredCodes(cfg: Config, ev: ContainerEvent): set<int> {
    match ev.labels.exitIgnore
    case Some(codes) => set code | code in codes
    case None => cfg.ignoreCodes
  }

  /**
   An event is reported exactly when it is a die and, going by the whole history, no stop was requested since the
   container last started, the OOM detector doesn't report it already, and its exit code is ignored neither by the
   container's own label nor, without one, by the configuration.
   */
  lemma {:induction false} ReportedIffCrashed(cfg: Config, h: seq<ContainerEvent>, ev: ContainerEvent)
    ensures Report(cfg, After(h), ev).Some? <==>
      && ev.action == Die && !SinceReset(h, ev.id, IsStop) && !(cfg.skipOOM && SinceReset(h, ev.id, IsOOM))
      && ev.exitCode !in IgnoredCodes(cfg, ev)
    ensures Report(cfg, After(h), ev).Some? ==>
      Report(cfg, After(h), ev).value == Crash(ev.id, ev.exitCode, SinceReset(h, ev.id, IsOOM), ev.time)
  {
    AfterIsHistory(h, ev.id);
  }

  class ExitDetector {
    const cfg: Config
    var stops: set<string>
    var oomed: set<string>

    function State(): Memory
      reads this
    {
      Memory(stops, oomed)
    }

    constructor (cfg: Config)
      ensures this.cfg == cfg && State() == FRESH
    {
      this.cfg := cfg;
      stops, oomed := {}, {};
    }

    method HandleEvent(ev: ContainerEvent) returns (crash: Option<Crash>)
      modifies this
      ensures State() == Step(old(State()), ev)
      ensures crash == Report(cfg, old(State()), ev)
    {
      stops := Observe(stops, ev);
      crash := None;
      if IsReset(ev) {
        oomed := oomed - {ev.id};
      } else if ev.action == OOM {
        oomed := oomed + {ev.id};
      } else if ev.action == Die {
        if ev.id in stops || (cfg.skipOOM && ev.id in oomed) || Ignored(cfg, ev) {
          return None;
        }
        crash := Some(Crash(ev.id, ev.exitCode, ev.id in oomed, ev.time));
      }
    }

    method SaveState() returns (saved: Memory)
      ensures saved == State()
    {
      saved := Memory(stops, oomed);
    }

    /** Merges saved state in; a detector that was just made ends up with exactly what was saved. */
    method LoadState(saved: Memory)
      modifies this
      ensures stops == old(stops) + saved.stops && oomed == old(oomed) + saved.oomed
      ensures old(State()) == FRESH ==> State() == saved
    {
      stops := stops + saved.stops;
      oomed := oomed + saved.oomed;
    }
  }
}

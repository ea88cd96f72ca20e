/**
 What the event-driven detectors remember after crashes and restarts: the resumed stream and the
 detectors' own trace specifications put together.
 */
module Recovery {
  import opened Events
  import opened EventStream
  import Exits
  import CrashLoops
  import CrashLoopHistory

  /** The events a detector gets to see: not of excluded containers, nor of those it's turned off for. */
  function Visible(enabled: ContainerEvent -> bool, es: seq<Entry>): seq<ContainerEvent> {
    if es == [] then []
    else
      var n := |es| - 1;
      Visible(enabled, es[..n])
      + (if es[n].event.Some? && enabled(es[n].event.value) then [es[n].event.value] else [])
  }

  /** The exit detector on the stream. */
  function ExitOnStream(enabled: ContainerEvent -> bool): Detectors<Exits.Memory> {
    Detectors(Exits.FRESH, (m: Exits.Memory, e: Entry) =>
      if e.event.Some? && enabled(e.event.value) then Exits.Step(m, e.event.value) else m)
  }

  lemma {:induction false} ExitFold(enabled: ContainerEvent -> bool, es: seq<Entry>)
    ensures Fold(ExitOnStream(enabled), Exits.FRESH, es) == Exits.After(Visible(enabled, es))
    decreases |es|
  {
    if es != [] {
      var n := |es| - 1;
      ExitFold(enabled, es[..n]);
      var before, after := Visible(enabled, es[..n]), Visible(enabled, es);
      if es[n].event.Some? && enabled(es[n].event.value) {
        assert after[..|after| - 1] == before;
      } else {
        assert after == before;
      }
    }
  }

  /**
   After any mix of drops, crashes and restarts, a die the stream delivers next is reported exactly when
   the daemon's log, from where nodux came in, shows a crash.
   */
  lemma CrashesAreToldAfterRecovery(cfg: Exits.Config, enabled: ContainerEvent -> bool, steps: seq<Step>, ev: ContainerEvent)
    requires Legal(ExitOnStream(enabled), steps) && AlwaysResumes(ExitOnStream(enabled), steps)
    requires Run(ExitOnStream(enabled), steps).up && ev.action == Action.Die
    ensures var w, came := Run(ExitOnStream(enabled), steps), CameIn(ExitOnStream(enabled), steps);
      && came.Some? && FirstAt(w.log, came.value) <= At(w.line) <= |w.log|
      && var h := Visible(enabled, w.log[FirstAt(w.log, came.value)..At(w.line)]);
         (Exits.Report(cfg, w.memory, ev).Some? <==>
            && !SinceReset(h, ev.id, IsStop) && !(cfg.skipOOM && SinceReset(h, ev.id, Exits.IsOOM))
            && ev.exitCode !in Exits.IgnoredCodes(cfg, ev))
  {
    var d := ExitOnStream(enabled);
    hide Run, FirstAt;
    RecoveryIsFromTheStart(d, steps);
    var w := Run(d, steps);
    var es := w.log[FirstAt(w.log, CameIn(d, steps).value)..At(w.line)];
    ExitFold(enabled, es);
    Exits.ReportedIffCrashed(cfg, Visible(enabled, es), ev);
  }

  /** The crash loop detector on the stream, without polls. */
  function CrashLoopOnStream(cfg: CrashLoops.Config, enabled: ContainerEvent -> bool): Detectors<CrashLoops.Memory> {
    Detectors(CrashLoops.FRESH, (m: CrashLoops.Memory, e: Entry) =>
      if e.event.Some? && enabled(e.event.value) then CrashLoops.OnEvent(cfg, m, e.event.value).0 else m)
  }

  function Happenings(h: seq<ContainerEvent>): seq<CrashLoopHistory.Step> {
    seq(|h|, i requires 0 <= i < |h| => CrashLoopHistory.Happened(h[i]))
  }

  lemma {:induction false} EventsOfHappenings(h: seq<ContainerEvent>)
    ensures CrashLoopHistory.EventsOf(Happenings(h)) == h
    decreases |h|
  {
    if h != [] {
      var n := |h| - 1;
      EventsOfHappenings(h[..n]);
      assert Happenings(h)[..n] == Happenings(h[..n]);
    }
  }

  lemma {:induction false} CrashLoopFold(cfg: CrashLoops.Config, enabled: ContainerEvent -> bool, es: seq<Entry>)
    ensures Fold(CrashLoopOnStream(cfg, enabled), CrashLoops.FRESH, es)
            == CrashLoopHistory.After(cfg, Happenings(Visible(enabled, es)))
    decreases |es|
  {
    if es != [] {
      var n := |es| - 1;
      CrashLoopFold(cfg, enabled, es[..n]);
      hide CrashLoops.OnEvent, CrashLoopHistory.EventsOf;
      var before, after := Visible(enabled, es[..n]), Visible(enabled, es);
      if es[n].event.Some? && enabled(es[n].event.value) {
        assert Happenings(after)[..|after| - 1] == Happenings(before);
      } else {
        assert after == before;
      }
    }
  }

  /** After any mix of drops, crashes and restarts, what is remembered about stops and crashes is what the log shows. */
  lemma StopsAndCrashesSurvive(cfg: CrashLoops.Config, enabled: ContainerEvent -> bool, steps: seq<Step>, id: string, code: int)
    requires Legal(CrashLoopOnStream(cfg, enabled), steps) && AlwaysResumes(CrashLoopOnStream(cfg, enabled), steps)
    requires Run(CrashLoopOnStream(cfg, enabled), steps).up
    ensures var w, came := Run(CrashLoopOnStream(cfg, enabled), steps), CameIn(CrashLoopOnStream(cfg, enabled), steps);
      && came.Some? && FirstAt(w.log, came.value) <= At(w.line) <= |w.log|
      && var h := Visible(enabled, w.log[FirstAt(w.log, came.value)..At(w.line)]);
         && (id in w.memory.stops <==> SinceReset(h, id, IsStop))
         && (id in w.memory.crashed && w.memory.crashed[id] == code <==> CrashLoopHistory.DiedUnasked(h, id, code))
  {
    var d := CrashLoopOnStream(cfg, enabled);
    hide Run, FirstAt;
    RecoveryIsFromTheStart(d, steps);
    var w := Run(d, steps);
    var es := w.log[FirstAt(w.log, CameIn(d, steps).value)..At(w.line)];
    var h := Visible(enabled, es);
    CrashLoopFold(cfg, enabled, es);
    EventsOfHappenings(h);
    CrashLoopHistory.MemoryIsHistory(cfg, Happenings(h), id, code);
  }

  /**
   However long nodux was down: what the crash loop detector remembers, open loops included, is what the events say
   that led to the save it started from, and those since.
   */
  lemma OutagesForgetNothing(cfg: CrashLoops.Config, enabled: ContainerEvent -> bool, steps: seq<Step>)
    requires Legal(CrashLoopOnStream(cfg, enabled), steps) && Run(CrashLoopOnStream(cfg, enabled), steps).up
    ensures var d := CrashLoopOnStream(cfg, enabled);
      Run(d, steps).memory == CrashLoopHistory.After(cfg, Happenings(Visible(enabled, PastOf(d, steps).live)))
  {
    hide Run, PastOf, Legal;
    var d := CrashLoopOnStream(cfg, enabled);
    MemoryIsItsPast(d, steps);
    CrashLoopFold(cfg, enabled, PastOf(d, steps).live);
  }
}

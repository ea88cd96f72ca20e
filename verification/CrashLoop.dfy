/**
 Crash loops: too many crashes of one container within a window. Events add to the list of restarts and can raise an
 alert; polls thin the list out and decide when the episode is over.
 */
module CrashLoops {
  import opened Base
  import opened Events
  import opened Filters

  datatype Config = Config(threshold: int, window: Time)

  datatype Loop = Loop(restarts: seq<Time>, firing: bool, threshold: int, window: Time)

  /** `crashed` maps a container that is down after a crash to its exit code. */
  datatype Memory = Memory(stops: set<string>, crashed: map<string, int>, loops: map<string, Loop>)

  const FRESH := Memory({}, map[], map[])

  /** An alert: how many restarts it counts, and the exit code if an event raised it. */
  datatype Alert = Alert(id: string, restarts: nat, exitCode: Option<int>, at: Time)

  function WindowOf(cfg: Config, labels: Labels): Time {
    if labels.window.Some? then labels.window.value else cfg.window
  }

  function ThresholdOf(cfg: Config, labels: Labels): int {
    if labels.threshold.Some? then labels.threshold.value else cfg.threshold
  }

  /** A container's own labels go before the general settings. */
  lemma LabelsGoFirst(cfg: Config, threshold: int, window: Time, exitIgnore: Option<seq<int>>)
    ensures ThresholdOf(cfg, Labels(exitIgnore, Some(threshold), Some(window))) == threshold
    ensures WindowOf(cfg, Labels(exitIgnore, Some(threshold), Some(window))) == window
    ensures ThresholdOf(cfg, Labels(exitIgnore, None, Some(window))) == cfg.threshold
    ensures WindowOf(cfg, Labels(exitIgnore, Some(threshold), None)) == cfg.window
  {
  }

  function NewLoop(cfg: Config, labels: Labels): Loop {
    Loop([], false, ThresholdOf(cfg, labels), WindowOf(cfg, labels))
  }

  function Forgotten(m: Memory, id: string): Memory {
    Memory(m.stops - {id}, m.crashed - {id}, m.loops - {id})
  }

  /** The loop of a container that has just come back from a crash. */
  function Restarted(cfg: Config, m: Memory, ev: ContainerEvent): Loop {
    var loop := if ev.id in m.loops then m.loops[ev.id] else NewLoop(cfg, ev.labels);
    loop.(restarts := Later(loop.restarts + [ev.time], ev.time - loop.window))
  }

  predicate Crosses(loop: Loop) {
    !loop.firing && |loop.restarts| >= loop.threshold
  }

  function OnEvent(cfg: Config, m: Memory, ev: ContainerEvent): (Memory, Option<Alert>) {
    var m1 := m.(stops := Observe(m.stops, ev));
    if ev.action == Die then
      (m1.(crashed := if ev.id in m1.stops then m1.crashed - {ev.id} else m1.crashed[ev.id := ev.exitCode]), None)
    else if ev.action == Destroy then (Forgotten(m1, ev.id), None)
    else if ev.action == Start && ev.id in m1.crashed then
      var loop := Restarted(cfg, m1, ev);
      (m1.(crashed := m1.crashed - {ev.id}, loops := m1.loops[ev.id := loop.(firing := loop.firing || Crosses(loop))]),
       if Crosses(loop) then Some(Alert(ev.id, |loop.restarts|, Some(m1.crashed[ev.id]), ev.time)) else None)
    else (m1, None)
  }

  /** A poll of a container in a loop: None once the episode is over. */
  function Polled(loop: Loop, running: bool, now: Time): Option<Loop> {
    var pruned := loop.(restarts := Later(loop.restarts, now - loop.window));
    if pruned.restarts == [] && (running || (!pruned.firing && |pruned.restarts| < pruned.threshold)) then None
    else Some(pruned.(firing := pruned.firing || Crosses(pruned)))
  }

  function OnPoll(m: Memory, id: string, running: bool, now: Time): (Memory, Option<Alert>) {
    if id !in m.loops then (m, None)
    else
      match Polled(m.loops[id], running, now)
      case None => (m.(loops := m.loops - {id}), None)
      case Some(loop) =>
        (m.(loops := m.loops[id := loop]), if loop.firing then Some(Alert(id, |loop.restarts|, None, now)) else None)
  }

  predicate Sound(loop: Loop) {
    loop.threshold > 0 && loop.window > 0
  }

  /** Merges saved state in, leaving out what makes no sense. */
  function Loaded(m: Memory, saved: Memory): Memory {
    Memory(m.stops + saved.stops, m.crashed + saved.crashed, m.loops + SoundOnly(saved.loops))
  }

  function SoundOnly(loops: map<string, Loop>): map<string, Loop> {
    map id | id in loops && Sound(loops[id]) :: loops[id]
  }

  /** A loop without a positive threshold and window isn't loaded; everything else that was saved is, over what is there. */
  lemma OnlySoundLoopsLoad(m: Memory, saved: Memory, id: string)
    ensures var loaded := Loaded(m, saved);
      var sound := id in saved.loops && saved.loops[id].threshold > 0 && saved.loops[id].window > 0;
      && (id in loaded.stops <==> id in m.stops || id in saved.stops)
      && (id in loaded.crashed <==> id in m.crashed || id in saved.crashed)
      && (id in saved.crashed ==> loaded.crashed[id] == saved.crashed[id])
      && (id in loaded.loops <==> id in m.loops || sound)
      && (sound ==> loaded.loops[id] == saved.loops[id])
      && (id in m.loops && !sound ==> loaded.loops[id] == m.loops[id])
  {
  }

  // ---- The detector ----

  class CrashLoopDetector {
    const cfg: Config
    var stops: set<string>
    var crashed: map<string, int>
    var loops: map<string, Loop>

    function Mem(): Memory
      reads this
    {
      Memory(stops, crashed, loops)
    }

    constructor (cfg: Config)
      ensures this.cfg == cfg && Mem() == FRESH
    {
      this.cfg := cfg;
      stops, crashed, loops := {}, map[], map[];
    }

    method HandleEvent(ev: ContainerEvent) returns (alert: Option<Alert>)
      modifies this
      ensures (Mem(), alert) == OnEvent(cfg, old(Mem()), ev)
    {
      stops := Observe(stops, ev);
      alert := None;
      if ev.action == Die {
        if ev.id in stops {
          crashed := crashed - {ev.id};
        } else {
          crashed := crashed[ev.id := ev.exitCode];
        }
      } else if ev.action == Destroy {
        Forget(ev.id);
      } else if ev.action == Start {
        if ev.id !in crashed {
          return None;
        }
        var exitCode := crashed[ev.id];
        crashed := crashed - {ev.id};
        var loop := if ev.id in loops then loops[ev.id] else NewLoop(cfg, ev.labels);
        var kept := Prune(loop.restarts + [ev.time], ev.time - loop.window);
        loop := loop.(restarts := kept);
        if !loop.firing && |loop.restarts| >= loop.threshold {
          loop := loop.(firing := true);
          alert := Some(Alert(ev.id, |loop.restarts|, Some(exitCode), ev.time));
        }
        loops := loops[ev.id := loop];
      }
    }

    method Prune(restarts: seq<Time>, cutoff: Time) returns (kept: seq<Time>)
      ensures kept == Later(restarts, cutoff)
    {
      kept := [];
      for i := 0 to |restarts|
        invariant kept == Later(restarts[..i], cutoff)
      {
        assert restarts[..i + 1][..i] == restarts[..i];
        if restarts[i] > cutoff {
          kept := kept + [restarts[i]];
        }
      }
      assert restarts[..|restarts|] == restarts;
    }

    method Check(id: string, running: bool, now: Time) returns (alert: Option<Alert>)
      modifies this`loops
      ensures (Mem(), alert) == OnPoll(old(Mem()), id, running, now)
    {
      if id !in loops {
        return None;
      }
      var loop := loops[id];
      var kept := Prune(loop.restarts, now - loop.window);
      loop := loop.(restarts := kept);
      if !loop.firing {
        if |loop.restarts| < loop.threshold {
          loops := if |loop.restarts| == 0 then loops - {id} else loops[id := loop];
          return None;
        }
        loop := loop.(firing := true);
      }
      if |loop.restarts| == 0 && running {
        loops := loops - {id};
        return None;
      }
      loops := loops[id := loop];
      alert := Some(Alert(id, |loop.restarts|, None, now));
    }

    method Forget(id: string)
      modifies this
      ensures Mem() == Forgotten(old(Mem()), id)
    {
      loops := loops - {id};
      crashed := crashed - {id};
      stops := stops - {id};
    }

    method SaveState() returns (saved: Memory)
      ensures saved == Mem()
    {
      saved := Memory(stops, crashed, loops);
    }

    method LoadState(saved: Memory)
      modifies this
      ensures Mem() == Loaded(old(Mem()), saved)
    {
      stops := stops + saved.stops;
      crashed := crashed + saved.crashed;
      LoadLoops(saved.loops);
    }

    method LoadLoops(saved: map<string, Loop>)
      modifies this`loops
      ensures loops == old(loops) + SoundOnly(saved)
    {
      var rest := saved.Keys;
      AllOfThem(saved);
      assert loops == loops + map[];
      while rest != {}
        invariant rest <= saved.Keys && loops == old(loops) + SoundOnly(saved - rest)
        decreases |rest|
      {
        hide SoundOnly;
        var id :| id in rest;
        var loop := saved[id];
        OneMoreSound(saved, rest, id);
        PlusOne(old(loops), SoundOnly(saved - rest), id, loop);
        rest := rest - {id};
        if loop.threshold <= 0 || loop.window <= 0 {
          continue;
        }
        loops := loops[id := loop];
      }
      assert saved - rest == saved;
    }
  }

  lemma AllOfThem(saved: map<string, Loop>)
    ensures SoundOnly(saved - saved.Keys) == map[]
  {
  }

  lemma PlusOne(a: map<string, Loop>, b: map<string, Loop>, id: string, loop: Loop)
    ensures a + b[id := loop] == (a + b)[id := loop]
  {
  }

  lemma OneMoreSound(saved: map<string, Loop>, rest: set<string>, id: string)
    requires id in rest && rest <= saved.Keys
    ensures SoundOnly(saved - (rest - {id})) ==
      if Sound(saved[id]) then SoundOnly(saved - rest)[id := saved[id]] else SoundOnly(saved - rest)
  {
  }
}

/** Crash loops against the whole history of events and polls. */
module CrashLoopHistory {
  import opened Base
  import opened Events
  import opened Filters
  import opened CrashLoops

  datatype Step =
    | Happened(ev: ContainerEvent)
    | Poll(id: string, running: bool, now: Time)
    | Gone(id: string, now: Time)  // the poll loop noticed that the container was removed

  function TimeOf(s: Step): Time {
    match s
    case Happened(ev) => ev.time
    case Poll(_, _, now) => now
    case Gone(_, now) => now
  }

  /** The events so far; a container noticed gone counts as destroyed. */
  function EventsOf(steps: seq<Step>): seq<ContainerEvent> {
    if steps == [] then []
    else
      var n := |steps| - 1;
      EventsOf(steps[..n]) + match steps[n]
                             case Happened(ev) => [ev]
                             case Poll(_, _, _) => []
                             case Gone(id, now) => [ContainerEvent(id, "", Destroy, 0, 0, 0, now, Labels(None, None, None))]
  }

  function Apply(cfg: Config, m: Memory, s: Step): (Memory, Option<Alert>) {
    match s
    case Happened(ev) => OnEvent(cfg, m, ev)
    case Poll(id, running, now) => OnPoll(m, id, running, now)
    case Gone(id, _) => (Forgotten(m, id), None)
  }

  function After(cfg: Config, steps: seq<Step>): Memory {
    if steps == [] then FRESH else Apply(cfg, After(cfg, steps[..|steps| - 1]), steps[|steps| - 1]).0
  }

  /** The container's last die, which nobody asked for, wasn't followed by a start. */
  ghost predicate DiedUnasked(h: seq<ContainerEvent>, id: string, exitCode: int) {
    exists k: nat :: DiedAt(h, id, exitCode, k)
  }

  ghost predicate DiedAt(h: seq<ContainerEvent>, id: string, exitCode: int, k: nat) {
    && k < |h| && h[k].id == id && h[k].action == Die && h[k].exitCode == exitCode
    && !SinceReset(h[..k], id, IsStop)
    && forall j :: k < j < |h| && h[j].id == id ==> !IsReset(h[j]) && h[j].action != Die
  }

  lemma DiedStep(h: seq<ContainerEvent>, ev: ContainerEvent, id: string, code: int)
    ensures DiedUnasked(h + [ev], id, code) <==>
      if ev.id != id then DiedUnasked(h, id, code)
      else if ev.action == Die then ev.exitCode == code && !SinceReset(h, id, IsStop)
      else !IsReset(ev) && DiedUnasked(h, id, code)
  {
    var g := h + [ev];
    assert g[..|h|] == h;
    if ev.id == id && ev.action == Die && ev.exitCode == code && !SinceReset(h, id, IsStop) {
      assert DiedAt(g, id, code, |h|);
    }
    if DiedUnasked(h, id, code) && (ev.id != id || (!IsReset(ev) && ev.action != Die)) {
      var k: nat :| DiedAt(h, id, code, k);
      assert g[..k] == h[..k];
      assert DiedAt(g, id, code, k);
    }
    if DiedUnasked(g, id, code) {
      var k: nat :| DiedAt(g, id, code, k);
      if k < |h| {
        assert g[..k] == h[..k] && g[k] == h[k];
        assert forall j :: k < j < |h| ==> g[j] == h[j];
        assert DiedAt(h, id, code, k);
        assert g[|h|] == ev;
      }
    }
  }

  /** What the detector remembers about stops and crashes is what the events say. */
  lemma {:induction false} MemoryIsHistory(cfg: Config, steps: seq<Step>, id: string, code: int)
    ensures id in After(cfg, steps).stops <==> SinceReset(EventsOf(steps), id, IsStop)
    ensures (id in After(cfg, steps).crashed && After(cfg, steps).crashed[id] == code) <==> DiedUnasked(EventsOf(steps), id, code)
    decreases |steps|
  {
    if steps != [] {
      var n := |steps| - 1;
      var h := EventsOf(steps[..n]);
      MemoryIsHistory(cfg, steps[..n], id, code);
      if !steps[n].Poll? {
        var ev := EventsOf(steps)[|h|];
        assert EventsOf(steps) == h + [ev];
        SinceResetStep(h, ev, id, IsStop);
        DiedStep(h, ev, id, code);
      } else {
        assert EventsOf(steps) == h;
      }
    }
  }

  // ---- Counted restarts ----

  ghost predicate IsCrashRestart(h: seq<ContainerEvent>, ev: ContainerEvent) {
    ev.action == Start && exists code :: DiedUnasked(h, ev.id, code)
  }

  /** Step i restarts the container after a crash. */
  ghost predicate CountsAt(steps: seq<Step>, i: nat, id: string) {
    && i < |steps| && steps[i].Happened? && steps[i].ev.id == id
    && IsCrashRestart(EventsOf(steps[..i]), steps[i].ev)
  }

  /** The steps that restarted the container after a crash, since it was last destroyed. */
  ghost function Restarts(steps: seq<Step>, id: string): (at: seq<nat>)
    ensures InRange(steps, at)
  {
    if steps == [] then []
    else
      var n := |steps| - 1;
      if Destroys(steps[n], id) then []
      else if CountsAt(steps, n, id) then Restarts(steps[..n], id) + [n]
      else Restarts(steps[..n], id)
  }

  ghost predicate InRange(steps: seq<Step>, at: seq<nat>) {
    forall k :: 0 <= k < |at| ==> at[k] < |steps|
  }

  predicate Destroys(s: Step, id: string) {
    (s.Happened? && s.ev.id == id && s.ev.action == Destroy) || (s.Gone? && s.id == id)
  }

  function Times(steps: seq<Step>, at: seq<nat>): (times: seq<Time>)
    requires InRange(steps, at)
    ensures |times| == |at| && forall k :: 0 <= k < |at| ==> times[k] == TimeOf(steps[at[k]])
  {
    seq(|at|, k requires 0 <= k < |at| => TimeOf(steps[at[k]]))
  }

  /** When those restarts happened. */
  ghost function Counted(steps: seq<Step>, id: string): seq<Time> {
    Times(steps, Restarts(steps, id))
  }

  // ---- Which of them the detector still lists ----

  /** A step at which the detector looks at the container's list and drops what is a window old. */
  ghost predicate Cuts(steps: seq<Step>, j: nat, id: string) {
    CountsAt(steps, j, id) || (j < |steps| && steps[j].Poll? && steps[j].id == id)
  }

  /** By one of its looks at the list since, the restart at step i was a window old or older. */
  ghost predicate Outlived(steps: seq<Step>, i: nat, id: string, window: Time)
    requires i < |steps|
  {
    exists j :: i <= j < |steps| && Cuts(steps, j, id) && TimeOf(steps[j]) >= TimeOf(steps[i]) + window
  }

  /** The counted restarts that haven't been dropped. */
  ghost function Listed(steps: seq<Step>, at: seq<nat>, id: string, window: Time): seq<Time>
    requires InRange(steps, at)
  {
    if at == [] then []
    else
      var n := |at| - 1;
      Listed(steps, at[..n], id, window) + (if Outlived(steps, at[n], id, window) then [] else [TimeOf(steps[at[n]])])
  }

  lemma StepsBefore(steps: seq<Step>, s: Step, i: nat, id: string)
    requires i < |steps|
    ensures CountsAt(steps + [s], i, id) <==> CountsAt(steps, i, id)
    ensures Cuts(steps + [s], i, id) <==> Cuts(steps, i, id)
  {
    assert (steps + [s])[..i] == steps[..i];
  }

  lemma OutlivedStep(steps: seq<Step>, s: Step, i: nat, id: string, window: Time)
    requires i < |steps|
    ensures Outlived(steps + [s], i, id, window) <==>
      Outlived(steps, i, id, window) || (Cuts(steps + [s], |steps|, id) && TimeOf(s) >= TimeOf(steps[i]) + window)
  {
    hide CountsAt, Cuts;
    var more := steps + [s];
    forall j: nat | j < |steps| ensures Cuts(more, j, id) <==> Cuts(steps, j, id) {
      StepsBefore(steps, s, j, id);
    }
    if Outlived(steps, i, id, window) {
      var j :| i <= j < |steps| && Cuts(steps, j, id) && TimeOf(steps[j]) >= TimeOf(steps[i]) + window;
      assert more[j] == steps[j] && Cuts(more, j, id);
    }
    if Outlived(more, i, id, window) {
      var j :| i <= j < |more| && Cuts(more, j, id) && TimeOf(more[j]) >= TimeOf(more[i]) + window;
      assert j < |steps| ==> Cuts(steps, j, id);
    }
  }

  /** A look at the list drops what is a window old; other steps leave it as it is. */
  lemma {:induction false} ListedStep(steps: seq<Step>, s: Step, at: seq<nat>, id: string, window: Time)
    requires InRange(steps, at)
    ensures Listed(steps + [s], at, id, window) ==
      if Cuts(steps + [s], |steps|, id) then Later(Listed(steps, at, id, window), TimeOf(s) - window)
      else Listed(steps, at, id, window)
    decreases |at|
  {
    hide Cuts, Later, Outlived;
    if at == [] {
      LaterOfNone(TimeOf(s) - window);
    } else {
      var n := |at| - 1;
      ListedStep(steps, s, at[..n], id, window);
      OutlivedStep(steps, s, at[n], id, window);
      LaterAppend(Listed(steps, at[..n], id, window), TimeOf(steps[at[n]]), TimeOf(s) - window);
      assert Listed(steps, at[..n], id, window) + [] == Listed(steps, at[..n], id, window);
    }
  }

  lemma LaterOfNone(cutoff: Time)
    ensures Later([], cutoff) == []
  {
  }

  lemma RestartsStep(steps: seq<Step>, s: Step, id: string)
    ensures Restarts(steps + [s], id) ==
      if Destroys(s, id) then []
      else if CountsAt(steps + [s], |steps|, id) then Restarts(steps, id) + [|steps|]
      else Restarts(steps, id)
  {
    hide CountsAt, Destroys;
    assert (steps + [s])[..|steps|] == steps;
  }

  lemma ListedLast(more: seq<Step>, at: seq<nat>, id: string, window: Time)
    requires more != [] && InRange(more, at) && Cuts(more, |more| - 1, id)
    ensures var n := |more| - 1;
      Listed(more, at + [n], id, window)
        == Listed(more, at, id, window) + (if TimeOf(more[n]) > TimeOf(more[n]) - window then [TimeOf(more[n])] else [])
  {
    hide Cuts;
    var n := |more| - 1;
    assert (at + [n])[..|at|] == at;
    assert Outlived(more, n, id, window) <==> TimeOf(more[n]) >= TimeOf(more[n]) + window;
  }

  // ---- The detector's list ----

  function LoopOf(m: Memory, id: string): Option<Loop> {
    if id in m.loops then Some(m.loops[id]) else None
  }

  function ListOf(loop: Option<Loop>): seq<Time> {
    if loop.Some? then loop.value.restarts else []
  }

  /** What an event does to the loop of one container. */
  lemma LoopAfterEvent(cfg: Config, m: Memory, ev: ContainerEvent, id: string)
    ensures LoopOf(OnEvent(cfg, m, ev).0, id) ==
      if ev.id != id then LoopOf(m, id)
      else if ev.action == Destroy then None
      else if ev.action == Start && id in m.crashed then
        var loop := Restarted(cfg, m, ev);
        Some(loop.(firing := loop.firing || Crosses(loop)))
      else LoopOf(m, id)
    ensures OnEvent(cfg, m, ev).1 ==
      if ev.action == Start && ev.id in m.crashed && Crosses(Restarted(cfg, m, ev))
      then Some(Alert(ev.id, |Restarted(cfg, m, ev).restarts|, Some(m.crashed[ev.id]), ev.time)) else None
  {
    hide Later, Observe;
    assert Restarted(cfg, m.(stops := Observe(m.stops, ev)), ev) == Restarted(cfg, m, ev);
  }

  lemma LoopAfterPoll(m: Memory, id: string, polled: string, running: bool, now: Time)
    ensures LoopOf(OnPoll(m, polled, running, now).0, id) ==
      if polled != id || id !in m.loops then LoopOf(m, id) else Polled(m.loops[id], running, now)
  {
    hide Later;
  }

  lemma CrashedIsRestart(cfg: Config, steps: seq<Step>, ev: ContainerEvent)
    ensures IsCrashRestart(EventsOf(steps), ev) <==> ev.action == Start && ev.id in After(cfg, steps).crashed
  {
    if ev.action == Start {
      var id := ev.id;
      var m := After(cfg, steps);
      if id in m.crashed {
        MemoryIsHistory(cfg, steps, id, m.crashed[id]);
      }
      if code :| DiedUnasked(EventsOf(steps), id, code) {
        MemoryIsHistory(cfg, steps, id, code);
      }
    }
  }

  /** Whether the last step restarts the container after a crash, by the detector's memory. */
  lemma CountsNow(cfg: Config, steps: seq<Step>, s: Step, id: string)
    ensures CountsAt(steps + [s], |steps|, id) <==>
      s.Happened? && s.ev.id == id && s.ev.action == Start && id in After(cfg, steps).crashed
  {
    assert (steps + [s])[..|steps|] == steps;
    if s.Happened? {
      CrashedIsRestart(cfg, steps, s.ev);
    }
  }

  lemma NoneListed(steps: seq<Step>, id: string, window: Time)
    ensures Listed(steps, [], id, window) == []
  {
  }

  /**
   * The restarts counted since the container's loop was made. The first of them made it, and its labels set the window
   * and the threshold for as long as the loop lasts.
   */
  ghost function Own(cfg: Config, steps: seq<Step>, id: string): (at: seq<nat>)
    ensures InRange(steps, at) && forall k :: 0 <= k < |at| ==> steps[at[k]].Happened?
    decreases |steps|
  {
    if steps == [] || id !in After(cfg, steps).loops then []
    else
      var n := |steps| - 1;
      if CountsAt(steps, n, id) then Own(cfg, steps[..n], id) + [n] else Own(cfg, steps[..n], id)
  }

  ghost predicate Labelled(steps: seq<Step>, at: seq<nat>) {
    at != [] && at[0] < |steps| && steps[at[0]].Happened?
  }

  function WindowBy(cfg: Config, steps: seq<Step>, at: seq<nat>): Time
    requires Labelled(steps, at)
  {
    WindowOf(cfg, steps[at[0]].ev.labels)
  }

  function ThresholdBy(cfg: Config, steps: seq<Step>, at: seq<nat>): int
    requires Labelled(steps, at)
  {
    ThresholdOf(cfg, steps[at[0]].ev.labels)
  }

  /** The container has a loop if there is anything to list, under those labels, and it lists what hasn't been dropped. */
  ghost predicate Exact(cfg: Config, steps: seq<Step>, at: seq<nat>, loop: Option<Loop>, id: string) {
    && InRange(steps, at)
    && (loop.Some? <==> at != [])
    && (loop.Some? ==>
          && Labelled(steps, at)
          && loop.value.window == WindowBy(cfg, steps, at) && loop.value.threshold == ThresholdBy(cfg, steps, at)
          && loop.value.restarts == Listed(steps, at, id, WindowBy(cfg, steps, at)))
  }

  lemma SameLabels(cfg: Config, steps: seq<Step>, s: Step, at: seq<nat>)
    requires Labelled(steps, at)
    ensures Labelled(steps + [s], at)
    ensures WindowBy(cfg, steps + [s], at) == WindowBy(cfg, steps, at)
    ensures ThresholdBy(cfg, steps + [s], at) == ThresholdBy(cfg, steps, at)
  {
    assert (steps + [s])[at[0]] == steps[at[0]];
  }

  lemma RestartedFrom(cfg: Config, m: Memory, ev: ContainerEvent)
    ensures var loop := if ev.id in m.loops then m.loops[ev.id] else Loop([], false, ThresholdOf(cfg, ev.labels), WindowOf(cfg, ev.labels));
      Restarted(cfg, m, ev) == loop.(restarts := Later(loop.restarts + [ev.time], ev.time - loop.window))
  {
    hide Later;
  }

  lemma FirstExact(cfg: Config, steps: seq<Step>, ev: ContainerEvent, loop: Loop)
    requires CountsAt(steps + [Happened(ev)], |steps|, ev.id)
    requires loop.threshold == ThresholdOf(cfg, ev.labels) && loop.window == WindowOf(cfg, ev.labels)
    requires loop.restarts == Later([] + [ev.time], ev.time - loop.window)
    ensures Exact(cfg, steps + [Happened(ev)], [|steps|], Some(loop), ev.id)
  {
    hide Later, CountsAt;
    var more := steps + [Happened(ev)];
    assert more[|steps|] == Happened(ev);
    ListedLast(more, [], ev.id, loop.window);
    NoneListed(more, ev.id, loop.window);
    LaterOfNone(ev.time - loop.window);
    LaterAppend([], ev.time, ev.time - loop.window);
    assert [] + [|steps|] == [|steps|];
  }

  lemma NextExact(cfg: Config, steps: seq<Step>, ev: ContainerEvent, at: seq<nat>, loop: Loop, next: Loop)
    requires Exact(cfg, steps, at, Some(loop), ev.id) && CountsAt(steps + [Happened(ev)], |steps|, ev.id)
    requires next.threshold == loop.threshold && next.window == loop.window
    requires next.restarts == Later(loop.restarts + [ev.time], ev.time - loop.window)
    ensures Exact(cfg, steps + [Happened(ev)], at + [|steps|], Some(next), ev.id)
  {
    hide Later, CountsAt, Listed;
    var more, w := steps + [Happened(ev)], loop.window;
    assert more[|steps|] == Happened(ev);
    SameLabels(cfg, steps, Happened(ev), at);
    ListedStep(steps, Happened(ev), at, ev.id, w);
    ListedLast(more, at, ev.id, w);
    LaterAppend(loop.restarts, ev.time, ev.time - w);
    assert (at + [|steps|])[0] == at[0];
  }

  lemma PolledExact(cfg: Config, steps: seq<Step>, s: Step, at: seq<nat>, loop: Loop, id: string)
    requires s.Poll? && s.id == id && Exact(cfg, steps, at, Some(loop), id)
    ensures Polled(loop, s.running, s.now).Some? ==> Exact(cfg, steps + [s], at, Polled(loop, s.running, s.now), id)
  {
    hide Later, CountsAt, Listed;
    SameLabels(cfg, steps, s, at);
    assert Cuts(steps + [s], |steps|, id);
    ListedStep(steps, s, at, id, loop.window);
  }

  lemma UntouchedExact(cfg: Config, steps: seq<Step>, s: Step, at: seq<nat>, loop: Option<Loop>, id: string)
    requires Exact(cfg, steps, at, loop, id) && !Cuts(steps + [s], |steps|, id)
    ensures Exact(cfg, steps + [s], at, loop, id)
  {
    hide Later, Cuts, Listed;
    if loop.Some? {
      SameLabels(cfg, steps, s, at);
      ListedStep(steps, s, at, id, loop.value.window);
    }
  }

  lemma GoneExact(cfg: Config, steps: seq<Step>, id: string)
    ensures Exact(cfg, steps, [], None, id)
  {
  }

  lemma OwnStep(cfg: Config, steps: seq<Step>, s: Step, id: string)
    ensures Own(cfg, steps + [s], id) ==
      if LoopOf(Apply(cfg, After(cfg, steps), s).0, id).None? then []
      else if CountsAt(steps + [s], |steps|, id) then Own(cfg, steps, id) + [|steps|]
      else Own(cfg, steps, id)
  {
    hide CountsAt, Apply;
    assert (steps + [s])[..|steps|] == steps;
  }

  lemma EventExact(cfg: Config, steps: seq<Step>, ev: ContainerEvent, id: string)
    requires Exact(cfg, steps, Own(cfg, steps, id), LoopOf(After(cfg, steps), id), id)
    ensures var more := steps + [Happened(ev)];
      Exact(cfg, more, Own(cfg, more, id), LoopOf(OnEvent(cfg, After(cfg, steps), ev).0, id), id)
  {
    hide Exact, OnEvent, Restarted, Later, After, Own, CountsAt;
    var more, m, at := steps + [Happened(ev)], After(cfg, steps), Own(cfg, steps, id);
    var before, after := LoopOf(m, id), LoopOf(OnEvent(cfg, m, ev).0, id);
    OwnStep(cfg, steps, Happened(ev), id);
    CountsNow(cfg, steps, Happened(ev), id);
    LoopAfterEvent(cfg, m, ev, id);
    assert more[|steps|] == Happened(ev);
    if CountsAt(more, |steps|, id) {
      RestartedFrom(cfg, m, ev);
      if before.None? {
        NothingOwned(cfg, steps, at, id);
        FirstExact(cfg, steps, ev, after.value);
        assert at + [|steps|] == [|steps|];
      } else {
        NextExact(cfg, steps, ev, at, before.value, after.value);
      }
    } else if after.None? {
      GoneExact(cfg, more, id);
    } else {
      assert before == after && !Cuts(more, |steps|, id);
      UntouchedExact(cfg, steps, Happened(ev), at, before, id);
    }
  }

  lemma NothingOwned(cfg: Config, steps: seq<Step>, at: seq<nat>, id: string)
    requires Exact(cfg, steps, at, None, id)
    ensures at == []
  {
  }

  lemma PollExact(cfg: Config, steps: seq<Step>, s: Step, id: string)
    requires s.Poll? && Exact(cfg, steps, Own(cfg, steps, id), LoopOf(After(cfg, steps), id), id)
    ensures Exact(cfg, steps + [s], Own(cfg, steps + [s], id), LoopOf(OnPoll(After(cfg, steps), s.id, s.running, s.now).0, id), id)
  {
    hide Exact, OnPoll, Polled, After, Own, CountsAt;
    var more, m, at := steps + [s], After(cfg, steps), Own(cfg, steps, id);
    OwnStep(cfg, steps, s, id);
    CountsNow(cfg, steps, s, id);
    LoopAfterPoll(m, id, s.id, s.running, s.now);
    assert more[|steps|] == s;
    if LoopOf(OnPoll(m, s.id, s.running, s.now).0, id).None? {
      GoneExact(cfg, more, id);
    } else if s.id == id {
      PolledExact(cfg, steps, s, at, m.loops[id], id);
    } else {
      UntouchedExact(cfg, steps, s, at, LoopOf(m, id), id);
    }
  }

  lemma GoneStepExact(cfg: Config, steps: seq<Step>, s: Step, id: string)
    requires s.Gone? && Exact(cfg, steps, Own(cfg, steps, id), LoopOf(After(cfg, steps), id), id)
    ensures Exact(cfg, steps + [s], Own(cfg, steps + [s], id), LoopOf(Forgotten(After(cfg, steps), s.id), id), id)
  {
    hide Exact, After, Own, CountsAt;
    OwnStep(cfg, steps, s, id);
    CountsNow(cfg, steps, s, id);
    assert (steps + [s])[|steps|] == s;
    if LoopOf(Forgotten(After(cfg, steps), s.id), id).None? {
      GoneExact(cfg, steps + [s], id);
    } else {
      assert !Cuts(steps + [s], |steps|, id);
      UntouchedExact(cfg, steps, s, Own(cfg, steps, id), LoopOf(After(cfg, steps), id), id);
    }
  }

  /**
   * In whatever order events and polls come, whatever their times and labels: a restart counted since the loop was made is
   * in the detector's list exactly until it looks at the list at a time that is a window or more later. Replayed events
   * and polls made meanwhile are no exception. Window and threshold are those of the restart that made the loop.
   */
  lemma {:induction false} ListIsExact(cfg: Config, steps: seq<Step>, id: string)
    ensures Exact(cfg, steps, Own(cfg, steps, id), LoopOf(After(cfg, steps), id), id)
    decreases |steps|
  {
    if steps == [] {
      GoneExact(cfg, steps, id);
    } else {
      hide Exact, Own, OnEvent, OnPoll, Forgotten;
      var n := |steps| - 1;
      ListIsExact(cfg, steps[..n], id);
      assert steps[..n] + [steps[n]] == steps;
      match steps[n]
      case Happened(ev) => EventExact(cfg, steps[..n], ev, id);
      case Poll(_, _, _) => PollExact(cfg, steps[..n], steps[n], id);
      case Gone(_, _) => GoneStepExact(cfg, steps[..n], steps[n], id);
    }
  }

  // ---- The list against the window ----

  /** The counted restarts from before the loop was made. */
  ghost function Earlier(cfg: Config, steps: seq<Step>, id: string): (at: seq<nat>)
    ensures InRange(steps, at)
  {
    var all, own := Restarts(steps, id), Own(cfg, steps, id);
    if |own| <= |all| then all[..|all| - |own|] else []
  }

  ghost predicate IsTail(all: seq<nat>, own: seq<nat>) {
    |own| <= |all| && all == all[..|all| - |own|] + own
  }

  lemma TailStep(all: seq<nat>, own: seq<nat>, n: nat, all': seq<nat>, own': seq<nat>)
    requires IsTail(all, own)
    requires own' == [] || (all' == all && own' == own) || (all' == all + [n] && own' == own + [n])
    ensures IsTail(all', own')
  {
    assert (all + [n])[..|all| - |own|] == all[..|all| - |own|];
  }

  lemma {:induction false} OwnTail(cfg: Config, steps: seq<Step>, id: string)
    ensures IsTail(Restarts(steps, id), Own(cfg, steps, id))
    decreases |steps|
  {
    if steps != [] {
      hide CountsAt, Apply, Destroys, Own, Restarts, IsTail, After, LoopOf;
      var n := |steps| - 1;
      var rest, s := steps[..n], steps[n];
      OwnTail(cfg, rest, id);
      assert rest + [s] == steps;
      RestartsStep(rest, s, id);
      OwnStep(cfg, rest, s, id);
      if Destroys(s, id) {
        DestroyedHasNone(cfg, After(cfg, rest), s, id);
      }
      TailStep(Restarts(rest, id), Own(cfg, rest, id), n, Restarts(steps, id), Own(cfg, steps, id));
    }
  }

  lemma OwnIsTail(cfg: Config, steps: seq<Step>, id: string)
    ensures Restarts(steps, id) == Earlier(cfg, steps, id) + Own(cfg, steps, id)
  {
    hide Own, Restarts;
    OwnTail(cfg, steps, id);
  }

  lemma DestroyedHasNone(cfg: Config, m: Memory, s: Step, id: string)
    requires Destroys(s, id)
    ensures LoopOf(Apply(cfg, m, s).0, id).None?
  {
  }

  lemma TimesSplit(cfg: Config, steps: seq<Step>, id: string, cutoff: Time)
    ensures Later(Counted(steps, id), cutoff)
         == Later(Times(steps, Earlier(cfg, steps, id)), cutoff) + Later(Times(steps, Own(cfg, steps, id)), cutoff)
  {
    hide Later, Own, Earlier, Restarts;
    OwnIsTail(cfg, steps, id);
    assert Counted(steps, id) == Times(steps, Earlier(cfg, steps, id)) + Times(steps, Own(cfg, steps, id));
    LaterConcat(Times(steps, Earlier(cfg, steps, id)), Times(steps, Own(cfg, steps, id)), cutoff);
  }

  /** No restart in the window up to now has been dropped. */
  ghost predicate NoneMissing(steps: seq<Step>, at: seq<nat>, id: string, window: Time, now: Time)
    requires InRange(steps, at)
  {
    forall k :: 0 <= k < |at| && TimeOf(steps[at[k]]) > now - window ==> !Outlived(steps, at[k], id, window)
  }

  lemma {:induction false} ListedInWindow(steps: seq<Step>, at: seq<nat>, id: string, window: Time, now: Time)
    requires InRange(steps, at)
    ensures |Later(Listed(steps, at, id, window), now - window)| <= |Later(Times(steps, at), now - window)|
    ensures Later(Listed(steps, at, id, window), now - window) == Later(Times(steps, at), now - window)
      <==> NoneMissing(steps, at, id, window, now)
    ensures !NoneMissing(steps, at, id, window, now) ==>
      |Later(Listed(steps, at, id, window), now - window)| < |Later(Times(steps, at), now - window)|
    decreases |at|
  {
    hide Outlived, Later;
    if at == [] {
      LaterOfNone(now - window);
      assert Times(steps, at) == [];
    } else {
      var n := |at| - 1;
      var listed, times, t := Listed(steps, at[..n], id, window), Times(steps, at[..n]), TimeOf(steps[at[n]]);
      ListedInWindow(steps, at[..n], id, window, now);
      assert Times(steps, at) == times + [t];
      LaterAppend(times, t, now - window);
      LaterAppend(listed, t, now - window);
      assert listed + [] == listed;
      NoneMissingLast(steps, at, id, window, now);
    }
  }

  lemma NoneMissingLast(steps: seq<Step>, at: seq<nat>, id: string, window: Time, now: Time)
    requires InRange(steps, at) && at != []
    ensures var n := |at| - 1;
      NoneMissing(steps, at, id, window, now) <==>
        NoneMissing(steps, at[..n], id, window, now)
        && (TimeOf(steps[at[n]]) > now - window ==> !Outlived(steps, at[n], id, window))
  {
    hide Outlived;
    var n := |at| - 1;
    if NoneMissing(steps, at, id, window, now) {
      forall k | 0 <= k < n && TimeOf(steps[at[..n][k]]) > now - window ensures !Outlived(steps, at[..n][k], id, window) {
        assert at[..n][k] == at[k];
      }
    }
    if NoneMissing(steps, at[..n], id, window, now) {
      forall k | 0 <= k < n && TimeOf(steps[at[k]]) > now - window ensures !Outlived(steps, at[k], id, window) {
        assert at[..n][k] == at[k];
      }
    }
  }

  /** Nothing in the steps is later than now. */
  ghost predicate UpTo(steps: seq<Step>, now: Time) {
    forall i :: 0 <= i < |steps| ==> TimeOf(steps[i]) <= now
  }

  lemma NoneMissingYet(steps: seq<Step>, at: seq<nat>, id: string, window: Time, now: Time)
    requires InRange(steps, at) && UpTo(steps, now)
    ensures NoneMissing(steps, at, id, window, now)
  {
    hide Cuts;
  }

  /**
   * As of the latest time seen so far, in whatever order the steps came, the list has all of its loop's restarts in the
   * window; and all counted restarts there, exactly when none of those from before the loop was made is in the window.
   */
  lemma ListCoversTheWindow(cfg: Config, steps: seq<Step>, id: string, now: Time)
    requires UpTo(steps, now) && Own(cfg, steps, id) != []
    ensures var at := Own(cfg, steps, id);
      var cutoff := now - WindowBy(cfg, steps, at);
      var list := ListOf(LoopOf(After(cfg, steps), id));
      && Later(list, cutoff) == Later(Times(steps, at), cutoff)
      && (Later(list, cutoff) == Later(Counted(steps, id), cutoff) <==> Later(Times(steps, Earlier(cfg, steps, id)), cutoff) == [])
  {
    hide After, Own, Earlier, Listed, NoneMissing, Later, Counted;
    var at := Own(cfg, steps, id);
    ListIsExact(cfg, steps, id);
    var w := WindowBy(cfg, steps, at);
    NoneMissingYet(steps, at, id, w, now);
    ListedInWindow(steps, at, id, w, now);
    TimesSplit(cfg, steps, id, now - w);
  }

  /** The window label of the container stays the same. */
  ghost predicate FixedWindow(cfg: Config, steps: seq<Step>, id: string, window: Time) {
    forall i :: 0 <= i < |steps| && steps[i].Happened? && steps[i].ev.id == id ==> WindowOf(cfg, steps[i].ev.labels) == window
  }

  lemma OutlivedMore(steps: seq<Step>, s: Step, at: seq<nat>, id: string, window: Time)
    requires InRange(steps, at) && AllOutlived(steps, at, id, window)
    ensures AllOutlived(steps + [s], at, id, window)
  {
    hide Outlived, Cuts;
    forall k | 0 <= k < |at| ensures Outlived(steps + [s], at[k], id, window) {
      OutlivedStep(steps, s, at[k], id, window);
    }
  }

  /** When a poll ends a loop, all of its restarts have been dropped. */
  lemma PollEndsOutlived(cfg: Config, steps: seq<Step>, s: Step, at: seq<nat>, loop: Loop, id: string)
    requires s.Poll? && s.id == id && Exact(cfg, steps, at, Some(loop), id) && Polled(loop, s.running, s.now).None?
    ensures AllOutlived(steps + [s], at, id, loop.window)
  {
    hide Later, CountsAt, Listed, AllOutlived;
    assert Cuts(steps + [s], |steps|, id);
    ListedStep(steps, s, at, id, loop.window);
    NothingListed(steps + [s], at, id, loop.window);
  }

  /** How one step changes what comes from before the loop. */
  lemma EarlierStep(cfg: Config, steps: seq<Step>, s: Step, id: string)
    requires !Destroys(s, id)
    ensures var ended := LoopOf(After(cfg, steps), id).Some? && LoopOf(Apply(cfg, After(cfg, steps), s).0, id).None?;
      && Earlier(cfg, steps + [s], id) == (if ended then Restarts(steps, id) else Earlier(cfg, steps, id))
      && (ended ==> s.Poll? && s.id == id && Polled(After(cfg, steps).loops[id], s.running, s.now).None?)
  {
    hide Apply, CountsAt, After;
    CountsNow(cfg, steps, s, id);
    RestartsStep(steps, s, id);
    OwnStep(cfg, steps, s, id);
    OwnIsTail(cfg, steps, id);
    OwnIsTail(cfg, steps + [s], id);
    ListIsExact(cfg, steps, id);
    StepEnds(cfg, After(cfg, steps), s, id);
  }

  /** Only a destroy or a poll takes a container's loop away, and a counted restart leaves it one. */
  lemma StepEnds(cfg: Config, m: Memory, s: Step, id: string)
    requires !Destroys(s, id)
    ensures LoopOf(m, id).Some? && LoopOf(Apply(cfg, m, s).0, id).None? ==>
      s.Poll? && s.id == id && Polled(m.loops[id], s.running, s.now).None?
    ensures LoopOf(m, id).None? ==>
      (LoopOf(Apply(cfg, m, s).0, id).Some? <==> s.Happened? && s.ev.id == id && s.ev.action == Start && id in m.crashed)
    ensures s.Happened? && s.ev.id == id && s.ev.action == Start && id in m.crashed ==> LoopOf(Apply(cfg, m, s).0, id).Some?
  {
    hide OnEvent, OnPoll, Polled;
    match s
    case Happened(ev) => LoopAfterEvent(cfg, m, ev, id);
    case Poll(polled, running, now) => LoopAfterPoll(m, id, polled, running, now);
    case Gone(_, _) =>
  }

  lemma {:induction false} EarlierIsOutlived(cfg: Config, steps: seq<Step>, id: string, window: Time)
    requires FixedWindow(cfg, steps, id, window)
    ensures AllOutlived(steps, Earlier(cfg, steps, id), id, window)
    decreases |steps|
  {
    if steps != [] {
      hide After, Own, Restarts, Earlier, AllOutlived, Apply, Polled;
      var n := |steps| - 1;
      var rest, s := steps[..n], steps[n];
      assert rest + [s] == steps;
      assert FixedWindow(cfg, rest, id, window);
      EarlierIsOutlived(cfg, rest, id, window);
      OutlivedMore(rest, s, Earlier(cfg, rest, id), id, window);
      if Destroys(s, id) {
        NoEarlier(cfg, rest, s, id);
        assert AllOutlived(steps, [], id, window) by { NoneOutlived(steps, id, window); }
      } else {
        EarlierStep(cfg, rest, s, id);
        if Earlier(cfg, steps, id) != Earlier(cfg, rest, id) {
          ListIsExact(cfg, rest, id);
          PollEndsOutlived(cfg, rest, s, Own(cfg, rest, id), After(cfg, rest).loops[id], id);
          assert WindowBy(cfg, rest, Own(cfg, rest, id)) == window by { OwnWindow(cfg, rest, id, window); }
          OwnIsTail(cfg, rest, id);
          BothOutlived(steps, Earlier(cfg, rest, id), Own(cfg, rest, id), id, window);
        }
      }
    }
  }

  lemma NoneOutlived(steps: seq<Step>, id: string, window: Time)
    ensures AllOutlived(steps, [], id, window)
  {
  }

  lemma NoEarlier(cfg: Config, steps: seq<Step>, s: Step, id: string)
    requires Destroys(s, id)
    ensures Earlier(cfg, steps + [s], id) == []
  {
    hide Own, Destroys;
    RestartsStep(steps, s, id);
  }

  lemma BothOutlived(steps: seq<Step>, a: seq<nat>, b: seq<nat>, id: string, window: Time)
    requires InRange(steps, a) && InRange(steps, b) && AllOutlived(steps, a, id, window) && AllOutlived(steps, b, id, window)
    ensures AllOutlived(steps, a + b, id, window)
  {
    hide Outlived;
  }

  lemma {:induction false} OwnIDs(cfg: Config, steps: seq<Step>, id: string)
    ensures forall k :: 0 <= k < |Own(cfg, steps, id)| ==> steps[Own(cfg, steps, id)[k]].ev.id == id
    decreases |steps|
  {
    if steps != [] {
      OwnIDs(cfg, steps[..|steps| - 1], id);
    }
  }

  lemma OwnWindow(cfg: Config, steps: seq<Step>, id: string, window: Time)
    requires FixedWindow(cfg, steps, id, window) && Own(cfg, steps, id) != []
    ensures WindowBy(cfg, steps, Own(cfg, steps, id)) == window
  {
    hide Own;
    OwnIDs(cfg, steps, id);
  }

  /** If the window label doesn't change, no restart from before the loop was made is in the window as of the latest time. */
  lemma FixedWindowMissesNone(cfg: Config, steps: seq<Step>, id: string, window: Time, now: Time)
    requires FixedWindow(cfg, steps, id, window) && UpTo(steps, now)
    ensures Later(Times(steps, Earlier(cfg, steps, id)), now - window) == []
  {
    hide Earlier, Later;
    var at := Earlier(cfg, steps, id);
    EarlierIsOutlived(cfg, steps, id, window);
    NoneMissingYet(steps, at, id, window, now);
    ListedInWindow(steps, at, id, window, now);
    NothingListed(steps, at, id, window);
    LaterOfNone(now - window);
  }

  // ---- What the detector promises ----

  ghost predicate Firing(m: Memory, id: string) {
    id in m.loops && m.loops[id].firing
  }

  /**
   * An event raises an alert exactly when it is a start after a crash, no episode is open, and the restarts listed,
   * this one included, have reached the threshold. The alert carries their number and the exit code of the last die.
   */
  lemma AlertsExactlyWhen(cfg: Config, steps: seq<Step>, ev: ContainerEvent)
    ensures var more := steps + [Happened(ev)];
      var at := Own(cfg, more, ev.id);
      var alert := OnEvent(cfg, After(cfg, steps), ev).1;
      && (IsCrashRestart(EventsOf(steps), ev) ==> at != [])
      && (alert.Some? <==> IsCrashRestart(EventsOf(steps), ev) && !Firing(After(cfg, steps), ev.id)
                           && |Listed(more, at, ev.id, WindowBy(cfg, more, at))| >= ThresholdBy(cfg, more, at))
      && (alert.Some? ==> alert.value.id == ev.id && alert.value.restarts == |Listed(more, at, ev.id, WindowBy(cfg, more, at))|
                          && alert.value.exitCode.Some? && DiedUnasked(EventsOf(steps), ev.id, alert.value.exitCode.value))
  {
    hide Own, Later, Listed, OnEvent, IsCrashRestart, Restarted, DiedUnasked;
    var more, m := steps + [Happened(ev)], After(cfg, steps);
    assert more[..|steps|] == steps && more[|steps|] == Happened(ev);
    CrashedIsRestart(cfg, steps, ev);
    LoopAfterEvent(cfg, m, ev, ev.id);
    ListIsExact(cfg, more, ev.id);
    RestartedFrom(cfg, m, ev);
    if ev.id in m.crashed {
      MemoryIsHistory(cfg, steps, ev.id, m.crashed[ev.id]);
    }
  }

  /**
   * An event's alert counts every restart in its window exactly when none of them was dropped before, by a poll or a
   * restart a window or more after it, and none of them is from before the loop was made.
   */
  lemma CountIsComplete(cfg: Config, steps: seq<Step>, ev: ContainerEvent)
    requires IsCrashRestart(EventsOf(steps), ev)
    ensures var more := steps + [Happened(ev)];
      var at := Own(cfg, more, ev.id);
      && at != []
      && var w := WindowBy(cfg, more, at);
         var inWindow := Later(Counted(more, ev.id), ev.time - w);
         && |Listed(more, at, ev.id, w)| <= |inWindow|
         && (|Listed(more, at, ev.id, w)| == |inWindow| <==>
               NoneMissing(more, at, ev.id, w, ev.time) && Later(Times(more, Earlier(cfg, more, ev.id)), ev.time - w) == [])
  {
    hide Own, Later, Listed, Earlier, IsCrashRestart, NoneMissing, Counted;
    var more := steps + [Happened(ev)];
    var at := Own(cfg, more, ev.id);
    AlertsExactlyWhen(cfg, steps, ev);
    var w := WindowBy(cfg, more, at);
    ListedNow(cfg, steps, ev);
    ListedInWindow(more, at, ev.id, w, ev.time);
    TimesSplit(cfg, more, ev.id, ev.time - w);
  }

  /** Right after a counted restart nothing listed is outside its window. */
  lemma ListedNow(cfg: Config, steps: seq<Step>, ev: ContainerEvent)
    requires IsCrashRestart(EventsOf(steps), ev) && Own(cfg, steps + [Happened(ev)], ev.id) != []
    ensures var more := steps + [Happened(ev)];
      var at := Own(cfg, more, ev.id);
      var w := WindowBy(cfg, more, at);
      Later(Listed(more, at, ev.id, w), ev.time - w) == Listed(more, at, ev.id, w)
  {
    hide Own, Later, Listed, IsCrashRestart, OnEvent, Restarted;
    var more, m := steps + [Happened(ev)], After(cfg, steps);
    assert more[..|steps|] == steps && more[|steps|] == Happened(ev);
    CrashedIsRestart(cfg, steps, ev);
    LoopAfterEvent(cfg, m, ev, ev.id);
    ListIsExact(cfg, more, ev.id);
    RestartedFrom(cfg, m, ev);
    var loop := if ev.id in m.loops then m.loops[ev.id] else Loop([], false, ThresholdOf(cfg, ev.labels), WindowOf(cfg, ev.labels));
    LaterAgain(loop.restarts + [ev.time], ev.time - loop.window, ev.time - loop.window);
  }

  /**
   * An event no older than anything before it raises an alert exactly when it is a start after a crash, no episode is
   * open, and the restarts in the window since the loop was made have reached the threshold. If the window label hasn't
   * changed, these are all the restarts after crashes in the window.
   */
  lemma AlertsWhenThresholdIsCrossed(cfg: Config, steps: seq<Step>, ev: ContainerEvent)
    requires UpTo(steps, ev.time)
    ensures var more := steps + [Happened(ev)];
      var at := Own(cfg, more, ev.id);
      var alert := OnEvent(cfg, After(cfg, steps), ev).1;
      && (IsCrashRestart(EventsOf(steps), ev) ==> at != [])
      && (at != [] ==>
            var inWindow := Later(Times(more, at), ev.time - WindowBy(cfg, more, at));
            && (alert.Some? <==> IsCrashRestart(EventsOf(steps), ev) && !Firing(After(cfg, steps), ev.id)
                                 && |inWindow| >= ThresholdBy(cfg, more, at))
            && (alert.Some? ==> alert.value.restarts == |inWindow|)
            && (FixedWindow(cfg, more, ev.id, WindowBy(cfg, more, at)) ==>
                  inWindow == Later(Counted(more, ev.id), ev.time - WindowBy(cfg, more, at))))
      && (at == [] ==> alert.None?)
  {
    hide Own, Later, Listed, Earlier, IsCrashRestart, NoneMissing, OnEvent, Counted, After;
    var more := steps + [Happened(ev)];
    var at := Own(cfg, more, ev.id);
    assert UpTo(more, ev.time);
    AlertsExactlyWhen(cfg, steps, ev);
    if at != [] {
      var w := WindowBy(cfg, more, at);
      TimesSplit(cfg, more, ev.id, ev.time - w);
      if FixedWindow(cfg, more, ev.id, w) {
        FixedWindowMissesNone(cfg, more, ev.id, w, ev.time);
        assert [] + Later(Times(more, at), ev.time - w) == Later(Times(more, at), ev.time - w);
      }
      if IsCrashRestart(EventsOf(steps), ev) {
        ListedNow(cfg, steps, ev);
        NoneMissingYet(more, at, ev.id, w, ev.time);
        ListedInWindow(more, at, ev.id, w, ev.time);
      }
    }
  }

  // ---- An alert that a late event misses, and labels that come late ----

  const MINUTE: Time := 60 * 1_000_000_000

  const THREE_IN_TEN_MINUTES := Config(3, 10 * MINUTE)

  function Plain(id: string, action: Action, at: Time): Step {
    Happened(ContainerEvent(id, "", action, 1, 0, 0, at * MINUTE, Labels(None, None, None)))
  }

  /** A container that crashes, and is restarted two and three minutes in. */
  function Crashed(id: string): seq<Step> {
    [Plain(id, Die, 1), Plain(id, Start, 2), Plain(id, Die, 3), Plain(id, Start, 3)]
  }

  lemma AfterOne(cfg: Config, steps: seq<Step>, s: Step)
    ensures After(cfg, steps + [s]) == Apply(cfg, After(cfg, steps), s).0
  {
    assert (steps + [s])[..|steps|] == steps;
  }

  lemma AfterNone(cfg: Config)
    ensures After(cfg, []) == FRESH
  {
  }

  lemma AfterOneRestart(id: string)
    ensures After(THREE_IN_TEN_MINUTES, Crashed(id)[..3])
         == Memory({}, map[id := 1], map[id := Loop([2 * MINUTE], false, 3, 10 * MINUTE)])
  {
    hide After;
    var cfg, steps := THREE_IN_TEN_MINUTES, Crashed(id);
    AfterNone(cfg);
    AfterOne(cfg, [], steps[0]);
    assert [] + [steps[0]] == [steps[0]];
    AfterOne(cfg, [steps[0]], steps[1]);
    assert [steps[0]] + [steps[1]] == [steps[0], steps[1]];
    LaterOne(2 * MINUTE, -8 * MINUTE);
    assert [] + [2 * MINUTE] == [2 * MINUTE];
    assert After(cfg, [steps[0], steps[1]]) == Memory({}, map[], map[id := Loop([2 * MINUTE], false, 3, 10 * MINUTE)]);
    AfterOne(cfg, [steps[0], steps[1]], steps[2]);
    assert [steps[0], steps[1]] + [steps[2]] == steps[..3];
  }

  lemma AfterTwoRestarts(id: string)
    ensures After(THREE_IN_TEN_MINUTES, Crashed(id))
         == Memory({}, map[], map[id := Loop([2 * MINUTE, 3 * MINUTE], false, 3, 10 * MINUTE)])
  {
    hide After;
    var cfg, steps := THREE_IN_TEN_MINUTES, Crashed(id);
    AfterOneRestart(id);
    AfterOne(cfg, steps[..3], steps[3]);
    assert steps[..3] + [steps[3]] == steps;
    var m, loop := After(cfg, steps[..3]), Loop([2 * MINUTE, 3 * MINUTE], false, 3, 10 * MINUTE);
    assert [2 * MINUTE] + [3 * MINUTE] == [2 * MINUTE, 3 * MINUTE];
    LaterTwo(2 * MINUTE, 3 * MINUTE, -7 * MINUTE);
    assert Restarted(cfg, m, steps[3].ev) == loop;
    assert m.crashed - {id} == map[] && m.loops[id := loop] == map[id := loop];
  }

  lemma LaterOne(a: Time, cutoff: Time)
    ensures Later([a], cutoff) == if a > cutoff then [a] else []
  {
    LaterOfNone(cutoff);
    LaterAppend([], a, cutoff);
    assert [] + [a] == [a];
  }

  lemma LaterTwo(a: Time, b: Time, cutoff: Time)
    ensures Later([a, b], cutoff) == (if a > cutoff then [a] else []) + (if b > cutoff then [b] else [])
  {
    LaterOne(a, cutoff);
    LaterAppend([a], b, cutoff);
    assert [a] + [b] == [a, b];
  }

  /**
   * Three crashes within ten minutes, and no alert: a poll at minute 13, handled before the crash of minute 10 arrives,
   * has dropped the first two restarts. Had it not come, the third would have raised the alert.
   */
  lemma LateEventMissesAnAlert(id: string)
    ensures var start := Plain(id, Start, 11).ev;
      var before, polled := Crashed(id), Crashed(id) + [Poll(id, true, 13 * MINUTE)];
      && OnEvent(THREE_IN_TEN_MINUTES, After(THREE_IN_TEN_MINUTES, polled + [Plain(id, Die, 10)]), start).1 == None
      && OnEvent(THREE_IN_TEN_MINUTES, After(THREE_IN_TEN_MINUTES, before + [Plain(id, Die, 10)]), start).1
         == Some(Alert(id, 3, Some(1), 11 * MINUTE))
  {
    hide After;
    var cfg, before := THREE_IN_TEN_MINUTES, Crashed(id);
    var polled := before + [Poll(id, true, 13 * MINUTE)];
    AfterTwoRestarts(id);
    AfterOne(cfg, before, Poll(id, true, 13 * MINUTE));
    LaterTwo(2 * MINUTE, 3 * MINUTE, 3 * MINUTE);
    assert After(cfg, polled) == FRESH;
    AfterOne(cfg, polled, Plain(id, Die, 10));
    AfterOne(cfg, before, Plain(id, Die, 10));
    assert [] + [11 * MINUTE] == [11 * MINUTE];
    LaterOne(11 * MINUTE, MINUTE);
    LaterTwo(2 * MINUTE, 3 * MINUTE, MINUTE);
    LaterAppend([2 * MINUTE, 3 * MINUTE], 11 * MINUTE, MINUTE);
    assert [2 * MINUTE, 3 * MINUTE] + [11 * MINUTE] == [2 * MINUTE, 3 * MINUTE, 11 * MINUTE];
  }

  /**
   * A loop keeps the threshold it was made under. If the container's label, asking for an alert at two restarts, is only
   * known from the second restart on, that restart raises none.
   */
  lemma LateLabelsDontCount(id: string)
    ensures var second := Plain(id, Start, 3).ev.(labels := Labels(None, Some(2), None));
      && ThresholdOf(THREE_IN_TEN_MINUTES, second.labels) == 2
      && OnEvent(THREE_IN_TEN_MINUTES, After(THREE_IN_TEN_MINUTES, Crashed(id)[..3]), second).1 == None
      && var loop := LoopOf(OnEvent(THREE_IN_TEN_MINUTES, After(THREE_IN_TEN_MINUTES, Crashed(id)[..3]), second).0, id);
         loop.Some? && |loop.value.restarts| == 2
  {
    hide After;
    AfterOneRestart(id);
    LaterTwo(2 * MINUTE, 3 * MINUTE, -7 * MINUTE);
    assert [2 * MINUTE] + [3 * MINUTE] == [2 * MINUTE, 3 * MINUTE];
  }

  /** A step that ends the container's episode: it is gone, or it is running and nothing of its loop is listed any more. */
  ghost predicate Ends(cfg: Config, steps: seq<Step>, s: Step, id: string) {
    Destroys(s, id) || (s.Poll? && s.id == id && s.running && OwnOutlived(cfg, steps, s, id))
  }

  /** By this step, each of the loop's restarts was a window old at some look at the list. */
  ghost predicate OwnOutlived(cfg: Config, steps: seq<Step>, s: Step, id: string) {
    var at := Own(cfg, steps, id);
    at != [] ==> AllOutlived(steps + [s], at, id, WindowBy(cfg, steps, at))
  }

  ghost predicate AllOutlived(steps: seq<Step>, at: seq<nat>, id: string, window: Time)
    requires InRange(steps, at)
  {
    forall k :: 0 <= k < |at| ==> Outlived(steps, at[k], id, window)
  }

  lemma {:induction false} NothingListed(steps: seq<Step>, at: seq<nat>, id: string, window: Time)
    requires InRange(steps, at)
    ensures Listed(steps, at, id, window) == [] <==> AllOutlived(steps, at, id, window)
    decreases |at|
  {
    hide Outlived;
    if at != [] {
      var n := |at| - 1;
      NothingListed(steps, at[..n], id, window);
      if AllOutlived(steps, at[..n], id, window) && Outlived(steps, at[n], id, window) {
        forall k | 0 <= k < |at| ensures Outlived(steps, at[k], id, window) {
          assert k < n ==> at[..n][k] == at[k];
        }
      }
      if AllOutlived(steps, at, id, window) {
        forall k | 0 <= k < n ensures Outlived(steps, at[..n][k], id, window) {
          assert at[..n][k] == at[k];
        }
      }
    }
  }

  /** Looked at last of all, a restart is outlived exactly when it is a window old now. */
  lemma OutlivedByNow(steps: seq<Step>, s: Step, i: nat, id: string, window: Time)
    requires UpTo(steps, TimeOf(s)) && Cuts(steps + [s], |steps|, id) && i < |steps|
    ensures Outlived(steps + [s], i, id, window) <==> TimeOf(steps[i]) <= TimeOf(s) - window
  {
    hide Cuts;
    var more := steps + [s];
    assert more[i] == steps[i] && more[|steps|] == s;
    if Outlived(more, i, id, window) {
      var j :| i <= j < |more| && Cuts(more, j, id) && TimeOf(more[j]) >= TimeOf(more[i]) + window;
      assert j < |steps| ==> more[j] == steps[j];
    }
  }

  lemma NoneLater(s: seq<Time>, cutoff: Time)
    ensures Later(s, cutoff) == [] <==> forall k :: 0 <= k < |s| ==> s[k] <= cutoff
  {
    FilterMembers(s, IsLater(cutoff));
    if Later(s, cutoff) == [] {
      forall k | 0 <= k < |s| ensures s[k] <= cutoff {
        assert s[k] in s;
      }
    } else {
      assert Later(s, cutoff)[0] in s;
    }
  }

  /** A poll of a running container that comes after everything else ends the episode once its window is empty. */
  lemma EndsWhenWindowIsEmpty(cfg: Config, steps: seq<Step>, id: string, now: Time)
    requires UpTo(steps, now) && Own(cfg, steps, id) != []
    ensures var at := Own(cfg, steps, id);
      Ends(cfg, steps, Poll(id, true, now), id) <==> Later(Times(steps, at), now - WindowBy(cfg, steps, at)) == []
  {
    hide Later, Own, Outlived, UpTo;
    var s, at := Poll(id, true, now), Own(cfg, steps, id);
    var more, window := steps + [s], WindowBy(cfg, steps, at);
    assert Cuts(more, |steps|, id);
    forall k | 0 <= k < |at| ensures Outlived(more, at[k], id, window) <==> Times(steps, at)[k] <= now - window {
      OutlivedByNow(steps, s, at[k], id, window);
    }
    NoneLater(Times(steps, at), now - window);
  }

  /** An open episode stays open unless a step ends it, and no event raises a second alert for it. */
  lemma EpisodeStaysOpen(cfg: Config, steps: seq<Step>, s: Step, id: string)
    requires Firing(After(cfg, steps), id)
    ensures Firing(Apply(cfg, After(cfg, steps), s).0, id) <==> !Ends(cfg, steps, s, id)
    ensures !RaisesAgain(cfg, steps, s, id)
  {
    hide After, Later, Listed, Own, OnEvent, OnPoll, Outlived, Polled;
    var m, at := After(cfg, steps), Own(cfg, steps, id);
    ListIsExact(cfg, steps, id);
    match s
    case Happened(ev) =>
      LoopAfterEvent(cfg, m, ev, id);
      EventKeepsFiring(cfg, m, ev, id);
    case Poll(polled, running, now) =>
      LoopAfterPoll(m, id, polled, running, now);
      if polled == id {
        var more := steps + [s];
        assert Cuts(more, |steps|, id);
        ListedStep(steps, s, at, id, WindowBy(cfg, steps, at));
        NothingListed(more, at, id, WindowBy(cfg, steps, at));
        PollKeepsFiring(m.loops[id], running, now);
      }
    case Gone(_, _) =>
  }

  lemma EventKeepsFiring(cfg: Config, m: Memory, ev: ContainerEvent, id: string)
    requires Firing(m, id)
    ensures Firing(OnEvent(cfg, m, ev).0, id) <==> !(ev.id == id && ev.action == Destroy)
    ensures OnEvent(cfg, m, ev).1.Some? ==> OnEvent(cfg, m, ev).1.value.id != id
  {
    hide Later;
  }

  lemma PollKeepsFiring(loop: Loop, running: bool, now: Time)
    requires loop.firing
    ensures Polled(loop, running, now).Some? <==> !(running && Later(loop.restarts, now - loop.window) == [])
    ensures Polled(loop, running, now).Some? ==> Polled(loop, running, now).value.firing
  {
    hide Later;
  }

  ghost predicate RaisesAgain(cfg: Config, before: seq<Step>, s: Step, id: string) {
    s.Happened? && var alert := Apply(cfg, After(cfg, before), s).1; alert.Some? && alert.value.id == id
  }

  /** Between two alerts an event raises for the same container, a step has ended the first episode. */
  lemma {:induction false} SecondAlertNeedsAnEnd(cfg: Config, steps: seq<Step>, i: nat, id: string)
    requires i <= |steps| && Firing(After(cfg, steps[..i]), id)
    requires forall k :: i <= k < |steps| ==> !Ends(cfg, steps[..k], steps[k], id)
    ensures Firing(After(cfg, steps), id)
    ensures forall k :: i <= k < |steps| ==> !RaisesAgain(cfg, steps[..k], steps[k], id)
    decreases |steps| - i
  {
    hide Ends, Firing, Apply, RaisesAgain;
    if i == |steps| {
      assert steps[..i] == steps;
    } else {
      EpisodeStaysOpen(cfg, steps[..i], steps[i], id);
      AfterNext(cfg, steps, i);
      SecondAlertNeedsAnEnd(cfg, steps, i + 1, id);
    }
  }

  lemma AfterNext(cfg: Config, steps: seq<Step>, i: nat)
    requires i < |steps|
    ensures After(cfg, steps[..i + 1]) == Apply(cfg, After(cfg, steps[..i]), steps[i]).0
  {
    assert steps[..i + 1][..i] == steps[..i];
  }

  // ---- Polls ----

  ghost predicate AllBelow(m: Memory) {
    forall id :: id in m.loops && !m.loops[id].firing ==> |m.loops[id].restarts| < m.loops[id].threshold
  }

  lemma {:induction false} LaterIsShorter(s: seq<Time>, cutoff: Time)
    ensures |Later(s, cutoff)| <= |s|
  {
    if s != [] {
      LaterIsShorter(s[..|s| - 1], cutoff);
    }
  }

  lemma StepBelow(cfg: Config, m: Memory, s: Step)
    requires AllBelow(m)
    ensures AllBelow(Apply(cfg, m, s).0)
  {
    hide Later;
    if s.Poll? && s.id in m.loops {
      var loop := m.loops[s.id];
      LaterIsShorter(loop.restarts, s.now - loop.window);
    }
  }

  /** A loop in which no episode is open lists fewer restarts than its threshold. */
  lemma {:induction false} RunBelow(cfg: Config, steps: seq<Step>)
    ensures AllBelow(After(cfg, steps))
    decreases |steps|
  {
    if steps != [] {
      hide Apply;
      RunBelow(cfg, steps[..|steps| - 1]);
      StepBelow(cfg, After(cfg, steps[..|steps| - 1]), steps[|steps| - 1]);
    }
  }

  /** A poll never opens an episode: what it reports, an event has raised. */
  lemma PollNeverOpens(cfg: Config, steps: seq<Step>, id: string, running: bool, now: Time)
    ensures OnPoll(After(cfg, steps), id, running, now).1.Some? ==> Firing(After(cfg, steps), id)
  {
    hide Later, After;
    RunBelow(cfg, steps);
    var m := After(cfg, steps);
    if id in m.loops {
      LaterIsShorter(m.loops[id].restarts, now - m.loops[id].window);
    }
  }

  lemma PollReports(m: Memory, id: string, running: bool, now: Time)
    requires AllBelow(m)
    ensures var report := OnPoll(m, id, running, now).1;
      && (report.Some? <==> Firing(m, id) && Firing(OnPoll(m, id, running, now).0, id))
      && (report.Some? ==>
            report.value == Alert(id, |Later(m.loops[id].restarts, now - m.loops[id].window)|, None, now))
  {
    hide Later;
    if id in m.loops {
      LaterIsShorter(m.loops[id].restarts, now - m.loops[id].window);
    }
  }

  /**
   * After any run, a poll reports exactly when an episode is open that it doesn't end. It tells the container, its own
   * time, no exit code, and how many of the loop's restarts neither an earlier look at the list nor this one dropped.
   */
  lemma PollReportsExactlyWhen(cfg: Config, steps: seq<Step>, id: string, running: bool, now: Time)
    ensures var s, at := Poll(id, running, now), Own(cfg, steps, id);
      var report := OnPoll(After(cfg, steps), id, running, now).1;
      && (Firing(After(cfg, steps), id) ==> at != [])
      && (report.Some? <==> Firing(After(cfg, steps), id) && !Ends(cfg, steps, s, id))
      && (report.Some? ==>
            report.value == Alert(id, |Listed(steps + [s], at, id, WindowBy(cfg, steps, at))|, None, now))
  {
    hide After, Own, Later, Listed, Ends, OnPoll, AllBelow;
    var s, at, m := Poll(id, running, now), Own(cfg, steps, id), After(cfg, steps);
    RunBelow(cfg, steps);
    PollReports(m, id, running, now);
    ListIsExact(cfg, steps, id);
    if Firing(m, id) {
      EpisodeStaysOpen(cfg, steps, s, id);
      assert (steps + [s])[|steps|] == s;
      ListedStep(steps, s, at, id, WindowBy(cfg, steps, at));
    }
  }

  lemma PollLeaves(m: Memory, id: string, running: bool, now: Time)
    requires AllBelow(m)
    ensures LoopOf(OnPoll(m, id, running, now).0, id).Some? <==>
      id in m.loops && (Later(m.loops[id].restarts, now - m.loops[id].window) != [] || (Firing(m, id) && !running))
  {
    hide Later;
  }

  /**
   * After any run, a poll leaves the container its loop exactly if some restart is still listed, or an episode is open and
   * the container isn't running. So the settings of the restart that made a loop don't outlive its restarts and episode.
   */
  lemma PollLeavesTheLoop(cfg: Config, steps: seq<Step>, id: string, running: bool, now: Time)
    requires Own(cfg, steps, id) != []
    ensures var s, at := Poll(id, running, now), Own(cfg, steps, id);
      LoopOf(OnPoll(After(cfg, steps), id, running, now).0, id).Some? <==>
        Listed(steps + [s], at, id, WindowBy(cfg, steps, at)) != [] || (Firing(After(cfg, steps), id) && !running)
  {
    hide After, Own, Later, Listed, OnPoll, AllBelow;
    var s, at, m := Poll(id, running, now), Own(cfg, steps, id), After(cfg, steps);
    RunBelow(cfg, steps);
    PollLeaves(m, id, running, now);
    ListIsExact(cfg, steps, id);
    assert (steps + [s])[|steps|] == s;
    ListedStep(steps, s, at, id, WindowBy(cfg, steps, at));
  }

  // ---- Restarts ----

  /** The configuration is validated, and a label counts only if its value is positive. */
  ghost predicate Validated(cfg: Config, steps: seq<Step>) {
    && cfg.threshold > 0 && cfg.window > 0
    && forall i :: 0 <= i < |steps| && steps[i].Happened? ==>
         ThresholdOf(cfg, steps[i].ev.labels) > 0 && WindowOf(cfg, steps[i].ev.labels) > 0
  }

  ghost predicate AllLoopsSound(m: Memory) {
    forall id :: id in m.loops ==> Sound(m.loops[id])
  }

  lemma StepSound(cfg: Config, m: Memory, s: Step)
    requires AllLoopsSound(m)
    requires s.Happened? ==> ThresholdOf(cfg, s.ev.labels) > 0 && WindowOf(cfg, s.ev.labels) > 0
    ensures AllLoopsSound(Apply(cfg, m, s).0)
  {
    hide Later;
  }

  /** Whatever happened, loading what was saved leaves nothing out: a restart doesn't show. */
  lemma {:induction false} ReloadIsExact(cfg: Config, steps: seq<Step>)
    requires Validated(cfg, steps)
    ensures AllLoopsSound(After(cfg, steps)) && Loaded(FRESH, After(cfg, steps)) == After(cfg, steps)
    decreases |steps|
  {
    hide Apply;
    var m := After(cfg, steps);
    if steps != [] {
      var n := |steps| - 1;
      ReloadIsExact(cfg, steps[..n]);
      StepSound(cfg, After(cfg, steps[..n]), steps[n]);
    }
    assert m.crashed == map[] + m.crashed;
    assert m.loops == map[] + SoundOnly(m.loops);
  }
}

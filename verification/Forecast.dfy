/** The disk forecast: a line through recent readings, and an episode while that line reaches zero soon. */
module Forecasts {
  import opened Base
  import opened Filters
  import opened Totals
  import opened LeastSquares

  const MAX_INT64: int := 0x7FFF_FFFF_FFFF_FFFF
  const SECOND: int := 1_000_000_000

  datatype Config = Config(window: Time, horizon: Time)

  datatype Sample = Sample(at: Time, avail: nat)

  /** What is remembered of one path. */
  datatype Disk = Disk(samples: seq<Sample>, firing: bool, failing: bool)

  const FRESH := Disk([], false, false)

  datatype Alert = Alert(path: string, eta: Time, at: Time)

  /** Doubling a duration wraps around. */
  function Wrap64(x: int): int {
    (x + MAX_INT64 + 1) % (2 * (MAX_INT64 + 1)) - MAX_INT64 - 1
  }

  function PointOf(t0: Time, s: Sample): Point {
    Point((s.at - t0) as real / SECOND as real, s.avail as real)
  }

  /** The samples as points: seconds since t0, bytes. */
  function Points(t0: Time, samples: seq<Sample>): (points: seq<Point>)
    ensures |points| == |samples| && forall i :: 0 <= i < |samples| ==> points[i] == PointOf(t0, samples[i])
  {
    seq(|samples|, i requires 0 <= i < |samples| => PointOf(t0, samples[i]))
  }

  predicate Enough(cfg: Config, samples: seq<Sample>) {
    |samples| >= 3 && samples[|samples| - 1].at - samples[0].at >= cfg.window / 4
  }

  /** The time left, or the longest duration there is when the disk isn't filling. */
  function Eta(slope: real, avail: real): Time {
    if slope < 0.0 && avail / -slope < (MAX_INT64 / SECOND) as real then (avail / -slope * SECOND as real).Floor
    else MAX_INT64
  }

  function Limit(cfg: Config, firing: bool): Time {
    if firing then Wrap64(2 * cfg.horizon) else cfg.horizon
  }

  function EtaOf(samples: seq<Sample>): Time
    requires samples != []
  {
    Eta(Slope(Points(samples[0].at, samples)), samples[|samples| - 1].avail as real)
  }

  /** The episode by the samples at hand: the time left, if there is enough to go by and it is within the limit. */
  function Forecast(cfg: Config, d: Disk): (Disk, Option<Time>) {
    if !Enough(cfg, d.samples) then (d, None)
    else if EtaOf(d.samples) > Limit(cfg, d.firing) then (d.(firing := false), None)
    else (d.(firing := true), Some(EtaOf(d.samples)))
  }

  /** Samples older than the window go. */
  function Trim(samples: seq<Sample>, cutoff: Time): seq<Sample> {
    if samples == [] || samples[0].at >= cutoff then samples else Trim(samples[1..], cutoff)
  }

  function Sampled(cfg: Config, d: Disk, avail: nat, now: Time): Disk {
    d.(samples := Trim(d.samples + [Sample(now, avail)], now - cfg.window), failing := false)
  }

  /** One check of one path. A path that can't be read keeps its open episode on what is known. */
  function Checked(cfg: Config, d: Disk, reading: Option<nat>, now: Time): (Disk, Option<Time>) {
    match reading
    case Some(avail) => Forecast(cfg, Sampled(cfg, d, avail, now))
    case None => if d.firing then Forecast(cfg, d.(failing := true)) else (d.(failing := true), None)
  }

  function DiskAt(disks: map<string, Disk>, path: string): Disk {
    if path in disks then disks[path] else FRESH
  }

  function ReadingAt(readings: map<string, nat>, path: string): Option<nat> {
    if path in readings then Some(readings[path]) else None
  }

  /** All paths, in order. */
  function CheckedAll(cfg: Config, disks: map<string, Disk>, paths: seq<string>, readings: map<string, nat>, now: Time)
    : (map<string, Disk>, seq<Alert>)
  {
    if paths == [] then (disks, [])
    else
      var path := paths[|paths| - 1];
      var (before, alerts) := CheckedAll(cfg, disks, paths[..|paths| - 1], readings, now);
      var (disk, eta) := Checked(cfg, DiskAt(before, path), ReadingAt(readings, path), now);
      (before[path := disk], if eta.Some? then alerts + [Alert(path, eta.value, now)] else alerts)
  }

  // ---- Restarts ----

  datatype Saved = Saved(firing: bool, samples: seq<Sample>)

  function IsAfter(cutoff: Time): Sample -> bool {
    (s: Sample) => s.at > cutoff
  }

  /** The samples taken after the cutoff. */
  function After(samples: seq<Sample>, cutoff: Time): seq<Sample> {
    Filter(samples, IsAfter(cutoff))
  }

  function Save(d: Disk): Saved {
    Saved(d.firing, d.samples)
  }

  function Load(cfg: Config, saved: Saved, now: Time): Disk {
    Disk(After(saved.samples, now - cfg.window), saved.firing, false)
  }

  class DiskForecastDetector {
    const cfg: Config
    const paths: seq<string>
    var samples: map<string, seq<Sample>>
    var firing: map<string, bool>
    var failing: map<string, bool>

    /** What the three maps say about one path. */
    function Known(path: string): Disk
      reads this
    {
      Disk(if path in samples then samples[path] else [], path in firing && firing[path], path in failing && failing[path])
    }

    constructor (cfg: Config, paths: seq<string>)
      ensures this.cfg == cfg && this.paths == paths && forall path :: Known(path) == FRESH
    {
      this.cfg, this.paths := cfg, paths;
      samples, firing, failing := map[], map[], map[];
    }

    /** `readings` are the paths whose free space could be read, and what it was. */
    method Check(readings: map<string, nat>, now: Time) returns (alerts: seq<Alert>)
      modifies this
      ensures var all := CheckedAll(cfg, map path | path in paths :: old(Known(path)), paths, readings, now);
        alerts == all.1 && forall path :: Known(path) == if path in paths then DiskAt(all.0, path) else old(Known(path))
    {
      hide Checked;
      ghost var disks := map path | path in paths :: Known(path);
      alerts := [];
      for i := 0 to |paths|
        invariant var all := CheckedAll(cfg, disks, paths[..i], readings, now);
          alerts == all.1 && forall path :: Known(path) == if path in paths then DiskAt(all.0, path) else old(Known(path))
      {
        assert paths[..i + 1][..i] == paths[..i];
        var eta := CheckPath(paths[i], ReadingAt(readings, paths[i]), now);
        if eta.Some? {
          alerts := alerts + [Alert(paths[i], eta.value, now)];
        }
      }
      assert paths[..|paths|] == paths;
    }

    method CheckPath(path: string, reading: Option<nat>, now: Time) returns (eta: Option<Time>)
      modifies this
      ensures (Known(path), eta) == Checked(cfg, old(Known(path)), reading, now)
      ensures forall p :: p != path ==> Known(p) == old(Known(p))
    {
      hide Forecast, Trim;
      eta := None;
      if reading.None? {
        failing := failing[path := true];
        if path in firing && firing[path] {
          eta := Project(path);
        }
        return;
      }
      failing := failing - {path};
      var s := TrimWindow((if path in samples then samples[path] else []) + [Sample(now, reading.value)], now - cfg.window);
      samples := samples[path := s];
      eta := Project(path);
    }

    static method TrimWindow(all: seq<Sample>, cutoff: Time) returns (s: seq<Sample>)
      ensures s == Trim(all, cutoff)
    {
      s := all;
      while |s| > 0 && s[0].at < cutoff
        invariant Trim(s, cutoff) == Trim(all, cutoff)
      {
        s := s[1..];
      }
    }

    /** The time left by the line through the samples, if that is within the limit; the path's episode follows it. */
    method Project(path: string) returns (eta: Option<Time>)
      modifies this`firing
      ensures (Known(path), eta) == Forecast(cfg, old(Known(path)))
      ensures forall p :: p != path ==> Known(p) == old(Known(p))
    {
      hide Slope;
      var s := if path in samples then samples[path] else [];
      if |s| < 3 || s[|s| - 1].at - s[0].at < cfg.window / 4 {
        return None;
      }
      var slope := FitSlope(s);
      var left := MAX_INT64;
      if slope < 0.0 {
        var secs := s[|s| - 1].avail as real / -slope;
        if secs < (MAX_INT64 / SECOND) as real {
          left := (secs * SECOND as real).Floor;
        }
      }
      var limit := if path in firing && firing[path] then Wrap64(2 * cfg.horizon) else cfg.horizon;
      if left > limit {
        firing := firing[path := false];
        return None;
      }
      firing := firing[path := true];
      eta := Some(left);
    }

    /** One record for every configured path. */
    method SaveState() returns (saved: map<string, Saved>)
      ensures saved.Keys == (set path | path in paths)
      ensures forall path :: path in saved ==> saved[path] == Save(Known(path))
    {
      saved := map[];
      for i := 0 to |paths|
        invariant saved.Keys == (set path | path in paths[..i])
        invariant forall path :: path in saved ==> saved[path] == Save(Known(path))
      {
        var path := paths[i];
        saved := saved[path := Saved(path in firing && firing[path], if path in samples then samples[path] else [])];
      }
    }

    /** After a restart, before the first check. */
    method LoadState(saved: map<string, Saved>, now: Time)
      modifies this`samples, this`firing
      ensures forall path :: path in paths && path in saved ==>
        Known(path) == Load(cfg, saved[path], now).(failing := old(Known(path)).failing)
      ensures forall path :: path !in paths || path !in saved ==> Known(path) == old(Known(path))
    {
      hide Load;
      for i := 0 to |paths|
        invariant forall path :: path in paths[..i] && path in saved ==>
          Known(path) == Load(cfg, saved[path], now).(failing := old(Known(path)).failing)
        invariant forall path :: path !in paths[..i] || path !in saved ==> Known(path) == old(Known(path))
      {
        if paths[i] in saved {
          LoadPath(paths[i], saved[paths[i]], now);
        }
      }
    }

    method LoadPath(path: string, saved: Saved, now: Time)
      modifies this`samples, this`firing
      ensures Known(path) == Load(cfg, saved, now).(failing := old(Known(path)).failing)
      ensures forall p :: p != path ==> Known(p) == old(Known(p))
    {
      var kept := Newer(saved.samples, now - cfg.window);
      firing := firing[path := saved.firing];
      samples := samples[path := kept];
    }

    static method Newer(all: seq<Sample>, cutoff: Time) returns (kept: seq<Sample>)
      ensures kept == After(all, cutoff)
    {
      kept := [];
      for i := 0 to |all|
        invariant kept == After(all[..i], cutoff)
      {
        FilterNext(all, i, IsAfter(cutoff));
        if all[i].at > cutoff {
          kept := kept + [all[i]];
        }
      }
      assert all[..|all|] == all;
    }
  }

  /** One more point in all four sums. */
  lemma SumsNext(points: seq<Point>, i: nat)
    requires i < |points|
    ensures Sum(Xs(points)[..i + 1]) == Sum(Xs(points)[..i]) + points[i].x
    ensures Sum(Ys(points)[..i + 1]) == Sum(Ys(points)[..i]) + points[i].y
    ensures Sum(Areas(Diagonal(points))[..i + 1]) == Sum(Areas(Diagonal(points))[..i]) + points[i].x * points[i].x
    ensures Sum(Areas(points)[..i + 1]) == Sum(Areas(points)[..i]) + points[i].x * points[i].y
  {
    hide Sum;
    SumNext(Xs(points), i);
    SumNext(Ys(points), i);
    SumNext(Areas(Diagonal(points)), i);
    SumNext(Areas(points), i);
  }

  lemma AllSums(points: seq<Point>)
    ensures Den(points) == |points| as real * Sum(Areas(Diagonal(points))[..|points|]) - Sum(Xs(points)[..|points|]) * Sum(Xs(points)[..|points|])
    ensures Num(points) == |points| as real * Sum(Areas(points)[..|points|]) - Sum(Xs(points)[..|points|]) * Sum(Ys(points)[..|points|])
  {
    hide Sum;
    DenIs(points);
    assert Xs(points)[..|points|] == Xs(points) && Ys(points)[..|points|] == Ys(points);
    assert Areas(Diagonal(points))[..|points|] == Areas(Diagonal(points)) && Areas(points)[..|points|] == Areas(points);
  }

  lemma NoSums(points: seq<Point>)
    ensures Sum(Xs(points)[..0]) == Sum(Ys(points)[..0]) == Sum(Areas(Diagonal(points))[..0]) == Sum(Areas(points)[..0]) == 0.0
  {
  }

  /** The least-squares slope of free space over time, in one pass. */
  method FitSlope(s: seq<Sample>) returns (slope: real)
    requires s != []
    ensures slope == Slope(Points(s[0].at, s))
  {
    hide Sum, Den, Num, Area;
    var t0 := s[0].at;
    ghost var points := Points(t0, s);
    NoSums(points);
    var n, sx, sy, sxx, sxy := 0.0, 0.0, 0.0, 0.0, 0.0;
    for i := 0 to |s|
      invariant n == i as real && sx == Sum(Xs(points)[..i]) && sy == Sum(Ys(points)[..i])
      invariant sxx == Sum(Areas(Diagonal(points))[..i]) && sxy == Sum(Areas(points)[..i])
    {
      SumsNext(points, i);
      var x, avail := (s[i].at - t0) as real / SECOND as real, s[i].avail as real;
      assert points[i] == Point(x, avail);
      n := n + 1.0;
      sx := sx + x;
      sy := sy + avail;
      sxx := sxx + x * x;
      sxy := sxy + x * avail;
    }
    AllSums(points);
    var den := n * sxx - sx * sx;
    if den == 0.0 {
      return 0.0;
    }
    slope := (n * sxy - sx * sy) / den;
  }
}

/** What a forecast says about the disk. */
module ForecastTheorems {
  import opened Base
  import opened Filters
  import opened LeastSquares
  import opened Forecasts

  // ---- The samples are the last window of the readings ----

  /** A check of the path, or nodux going down and coming up again. */
  datatype Step = Poll(reading: Option<nat>, now: Time) | Restart(now: Time)

  function Applied(cfg: Config, d: Disk, s: Step): (Disk, Option<Time>) {
    match s
    case Poll(reading, now) => Checked(cfg, d, reading, now)
    case Restart(now) => (Load(cfg, Save(d), now), None)
  }

  function State(cfg: Config, steps: seq<Step>): Disk {
    if steps == [] then FRESH else Applied(cfg, State(cfg, steps[..|steps| - 1]), steps[|steps| - 1]).0
  }

  /** What the last step reported. */
  function Told(cfg: Config, steps: seq<Step>): Option<Time>
    requires steps != []
  {
    Applied(cfg, State(cfg, steps[..|steps| - 1]), steps[|steps| - 1]).1
  }

  function Reading(s: Step): seq<Sample> {
    if s.Poll? && s.reading.Some? then [Sample(s.now, s.reading.value)] else []
  }

  function Readings(steps: seq<Step>): seq<Sample> {
    if steps == [] then [] else Readings(steps[..|steps| - 1]) + Reading(steps[|steps| - 1])
  }

  /** The readings from before the last restart. */
  function Before(steps: seq<Step>): seq<Sample> {
    if steps == [] then []
    else if steps[|steps| - 1].Restart? then Readings(steps[..|steps| - 1])
    else Before(steps[..|steps| - 1])
  }

  /** The readings since the last restart. */
  function Since(steps: seq<Step>): seq<Sample> {
    if steps == [] || steps[|steps| - 1].Restart? then []
    else Since(steps[..|steps| - 1]) + Reading(steps[|steps| - 1])
  }

  function LastRestart(steps: seq<Step>): Option<Time> {
    if steps == [] then None
    else if steps[|steps| - 1].Restart? then Some(steps[|steps| - 1].now)
    else LastRestart(steps[..|steps| - 1])
  }

  /** The readings that weren't a window old at the last restart. */
  function Kept(cfg: Config, steps: seq<Step>): seq<Sample> {
    (if LastRestart(steps).Some? then After(Before(steps), LastRestart(steps).value - cfg.window) else []) + Since(steps)
  }

  ghost predicate Monotone(steps: seq<Step>) {
    forall i, j :: 0 <= i <= j < |steps| ==> steps[i].now <= steps[j].now
  }

  ghost predicate InOrder(samples: seq<Sample>) {
    forall i, j :: 0 <= i <= j < |samples| ==> samples[i].at <= samples[j].at
  }

  ghost predicate UpTo(samples: seq<Sample>, now: Time) {
    forall i :: 0 <= i < |samples| ==> samples[i].at <= now
  }

  function IsFrom(cutoff: Time): Sample -> bool {
    (s: Sample) => s.at >= cutoff
  }

  /** The samples taken at the cutoff or later. */
  function From(samples: seq<Sample>, cutoff: Time): seq<Sample> {
    Filter(samples, IsFrom(cutoff))
  }

  lemma {:induction false} FromRest(samples: seq<Sample>, cutoff: Time)
    requires samples != [] && samples[0].at < cutoff
    ensures From(samples[1..], cutoff) == From(samples, cutoff)
  {
    var n := |samples| - 1;
    if n > 0 {
      FromRest(samples[..n], cutoff);
      assert samples[1..][..n - 1] == samples[..n][1..];
    }
  }

  lemma {:induction false} TrimIsFrom(samples: seq<Sample>, cutoff: Time)
    requires InOrder(samples)
    ensures Trim(samples, cutoff) == From(samples, cutoff)
  {
    if samples != [] {
      if samples[0].at >= cutoff {
        FilterAll(samples, IsFrom(cutoff));
      } else {
        TrimIsFrom(samples[1..], cutoff);
        FromRest(samples, cutoff);
      }
    }
  }

  lemma {:induction false} FilterOrder(samples: seq<Sample>, keep: Sample -> bool, now: Time)
    requires InOrder(samples) && UpTo(samples, now)
    ensures InOrder(Filter(samples, keep)) && UpTo(Filter(samples, keep), now)
  {
    if samples != [] {
      var n := |samples| - 1;
      FilterOrder(samples[..n], keep, samples[n].at);
    }
  }

  lemma {:induction false} BeforeAndSince(steps: seq<Step>)
    ensures Readings(steps) == Before(steps) + Since(steps)
    ensures LastRestart(steps).None? ==> Before(steps) == []
  {
    if steps != [] {
      BeforeAndSince(steps[..|steps| - 1]);
    }
  }

  lemma {:induction false} LastRestartIsPast(steps: seq<Step>)
    requires Monotone(steps) && LastRestart(steps).Some?
    ensures steps != [] && LastRestart(steps).value <= steps[|steps| - 1].now
  {
    var n := |steps| - 1;
    if !steps[n].Restart? {
      LastRestartIsPast(steps[..n]);
      assert steps[n - 1].now <= steps[n].now;
    }
  }

  /** What an earlier restart dropped, a later one would have. */
  lemma DroppedBefore(cfg: Config, steps: seq<Step>, cutoff: Time)
    requires LastRestart(steps).Some? ==> LastRestart(steps).value - cfg.window <= cutoff
    ensures After(Kept(cfg, steps), cutoff) == After(Readings(steps), cutoff)
  {
    hide Filter, Before, Since, Readings, LastRestart;
    var before, since := Before(steps), Since(steps);
    BeforeAndSince(steps);
    FilterConcat(before, since, IsAfter(cutoff));
    if LastRestart(steps).Some? {
      var earlier := LastRestart(steps).value - cfg.window;
      FilterConcat(After(before, earlier), since, IsAfter(cutoff));
      FilterAgain(before, IsAfter(earlier), IsAfter(cutoff));
    }
  }

  lemma KeptAtRestart(cfg: Config, steps: seq<Step>, s: Step)
    requires s.Restart? && (LastRestart(steps).Some? ==> LastRestart(steps).value <= s.now)
    ensures Kept(cfg, steps + [s]) == After(Kept(cfg, steps), s.now - cfg.window)
  {
    hide After, Readings;
    assert (steps + [s])[..|steps|] == steps;
    DroppedBefore(cfg, steps, s.now - cfg.window) by { hide Kept; }
    assert Before(steps + [s]) == Readings(steps) && Since(steps + [s]) == [];
  }

  lemma KeptAtPoll(cfg: Config, steps: seq<Step>, s: Step)
    requires s.Poll?
    ensures Kept(cfg, steps + [s]) == Kept(cfg, steps) + Reading(s)
  {
    hide After, Reading, Readings;
    assert (steps + [s])[..|steps|] == steps;
    assert Since(steps + [s]) == Since(steps) + Reading(s);
    assert Before(steps + [s]) == Before(steps) && LastRestart(steps + [s]) == LastRestart(steps);
  }

  ghost predicate IsWindow(cfg: Config, samples: seq<Sample>, kept: seq<Sample>, readings: seq<Sample>) {
    if readings == [] then samples == [] else samples == From(kept, readings[|readings| - 1].at - cfg.window)
  }

  lemma PollWindow(cfg: Config, samples: seq<Sample>, kept: seq<Sample>, readings: seq<Sample>, s: Sample)
    requires InOrder(samples) && UpTo(samples, s.at) && IsWindow(cfg, samples, kept, readings)
    requires if readings == [] then kept == [] else readings[|readings| - 1].at <= s.at
    ensures IsWindow(cfg, Trim(samples + [s], s.at - cfg.window), kept + [s], readings + [s])
  {
    hide Filter, Trim;
    var cutoff := s.at - cfg.window;
    TrimIsFrom(samples + [s], cutoff);
    FilterAppend(samples, s, IsFrom(cutoff));
    FilterAppend(kept, s, IsFrom(cutoff));
    if readings != [] {
      FilterAgain(kept, IsFrom(readings[|readings| - 1].at - cfg.window), IsFrom(cutoff));
    }
  }

  lemma RestartWindow(cfg: Config, samples: seq<Sample>, kept: seq<Sample>, readings: seq<Sample>, cutoff: Time)
    requires IsWindow(cfg, samples, kept, readings)
    ensures IsWindow(cfg, After(samples, cutoff), After(kept, cutoff), readings)
  {
    if readings != [] {
      FilterCommute(kept, IsFrom(readings[|readings| - 1].at - cfg.window), IsAfter(cutoff));
    }
  }

  lemma SamplesAfter(cfg: Config, d: Disk, reading: Option<nat>, now: Time)
    ensures Checked(cfg, d, reading, now).0.samples
      == if reading.Some? then Trim(d.samples + [Sample(now, reading.value)], now - cfg.window) else d.samples
  {
    hide Trim;
  }

  /** How one step changes the samples. */
  lemma SamplesApplied(cfg: Config, d: Disk, s: Step)
    ensures Applied(cfg, d, s).0.samples ==
      if s.Restart? then After(d.samples, s.now - cfg.window)
      else if s.reading.Some? then Trim(d.samples + [Sample(s.now, s.reading.value)], s.now - cfg.window)
      else d.samples
  {
    hide Checked, After;
    if s.Poll? {
      SamplesAfter(cfg, d, s.reading, s.now);
    }
  }

  lemma AppliedInOrder(cfg: Config, d: Disk, s: Step)
    requires InOrder(d.samples) && UpTo(d.samples, s.now)
    ensures InOrder(Applied(cfg, d, s).0.samples) && UpTo(Applied(cfg, d, s).0.samples, s.now)
  {
    hide Applied, Trim;
    SamplesApplied(cfg, d, s);
    var cutoff := s.now - cfg.window;
    FilterOrder(d.samples, IsAfter(cutoff), s.now);
    if s.Poll? && s.reading.Some? {
      var more := d.samples + [Sample(s.now, s.reading.value)];
      TrimIsFrom(more, cutoff);
      FilterOrder(more, IsFrom(cutoff), s.now);
    }
  }

  lemma {:induction false} SamplesInOrder(cfg: Config, steps: seq<Step>, now: Time)
    requires Monotone(steps) && (steps != [] ==> steps[|steps| - 1].now <= now)
    ensures InOrder(State(cfg, steps).samples) && UpTo(State(cfg, steps).samples, now)
    decreases |steps|
  {
    if steps != [] {
      hide Applied;
      var n := |steps| - 1;
      assert n > 0 ==> steps[n - 1].now <= steps[n].now;
      SamplesInOrder(cfg, steps[..n], steps[n].now);
      AppliedInOrder(cfg, State(cfg, steps[..n]), steps[n]);
    }
  }

  lemma {:induction false} ReadingsArePast(steps: seq<Step>, now: Time)
    requires Monotone(steps) && (steps != [] ==> steps[|steps| - 1].now <= now)
    ensures UpTo(Readings(steps), now)
    decreases |steps|
  {
    if steps != [] {
      var n := |steps| - 1;
      assert n > 0 ==> steps[n - 1].now <= steps[n].now;
      ReadingsArePast(steps[..n], steps[n].now);
    }
  }

  lemma WindowStep(cfg: Config, steps: seq<Step>, s: Step)
    requires Monotone(steps + [s]) && IsWindow(cfg, State(cfg, steps).samples, Kept(cfg, steps), Readings(steps))
    ensures IsWindow(cfg, State(cfg, steps + [s]).samples, Kept(cfg, steps + [s]), Readings(steps + [s]))
  {
    hide Applied, Kept, IsWindow, Trim, After, InOrder, UpTo, Monotone, Filter, LastRestart;
    var more, d := steps + [s], State(cfg, steps);
    assert more[..|steps|] == steps && more[|steps|] == s;
    MonotoneLast(steps, s);
    if LastRestart(steps).Some? {
      LastRestartIsPast(steps);
    }
    SamplesApplied(cfg, d, s);
    if s.Restart? {
      KeptAtRestart(cfg, steps, s);
      RestartWindow(cfg, d.samples, Kept(cfg, steps), Readings(steps), s.now - cfg.window);
      assert Readings(more) == Readings(steps);
    } else if s.reading.Some? {
      SamplesInOrder(cfg, steps, s.now);
      ReadingsArePast(steps, s.now);
      NothingKept(cfg, steps);
      KeptAtPoll(cfg, steps, s);
      PollWindow(cfg, d.samples, Kept(cfg, steps), Readings(steps), Sample(s.now, s.reading.value));
    } else {
      KeptAtPoll(cfg, steps, s);
      assert Readings(more) == Readings(steps) && Kept(cfg, steps) + [] == Kept(cfg, steps);
    }
  }

  lemma MonotoneLast(steps: seq<Step>, s: Step)
    requires Monotone(steps + [s])
    ensures Monotone(steps) && (steps != [] ==> steps[|steps| - 1].now <= s.now)
  {
    var more := steps + [s];
    assert forall i :: 0 <= i < |steps| ==> more[i] == steps[i];
    assert steps != [] ==> more[|steps| - 1].now <= more[|steps|].now;
  }

  lemma NothingKept(cfg: Config, steps: seq<Step>)
    ensures Readings(steps) == [] ==> Kept(cfg, steps) == []
  {
    BeforeAndSince(steps);
    if Readings(steps) == [] {
      assert Before(steps) == [] && Since(steps) == [];
    }
  }

  /**
   * However often reading failed and nodux was restarted: the samples are the readings of the window before the last one,
   * without those that were a window old at the last restart.
   */
  lemma {:induction false} SamplesAreTheWindow(cfg: Config, steps: seq<Step>)
    requires Monotone(steps)
    ensures IsWindow(cfg, State(cfg, steps).samples, Kept(cfg, steps), Readings(steps))
    decreases |steps|
  {
    if steps != [] {
      hide State, Kept, Readings, IsWindow;
      var n := |steps| - 1;
      SamplesAreTheWindow(cfg, steps[..n]);
      assert steps[..n] + [steps[n]] == steps;
      WindowStep(cfg, steps[..n], steps[n]);
    }
  }

  /** A path counts as failing exactly if its last check couldn't read it. */
  lemma FailingIsTheLast(cfg: Config, steps: seq<Step>)
    requires steps != [] && steps[|steps| - 1].Poll?
    ensures State(cfg, steps).failing <==> steps[|steps| - 1].reading.None?
  {
    hide EtaOf, Trim;
  }

  // ---- A disk that isn't filling never alerts ----

  ghost predicate NeverFalls(samples: seq<Sample>) {
    forall i, j :: 0 <= i <= j < |samples| ==> samples[i].at <= samples[j].at && samples[i].avail <= samples[j].avail
  }

  lemma Divide(a: int, b: int)
    requires a <= b
    ensures a as real / SECOND as real <= b as real / SECOND as real
  {
  }

  lemma NeverFallsClimbs(t0: Time, samples: seq<Sample>)
    requires NeverFalls(samples)
    ensures Climbing(Points(t0, samples))
  {
    var points := Points(t0, samples);
    forall i, j | 0 <= i <= j < |points| ensures points[i].x <= points[j].x && points[i].y <= points[j].y {
      Divide(samples[i].at - t0, samples[j].at - t0);
    }
  }

  lemma DoubledIsEven(h: int)
    ensures Wrap64(2 * h) != MAX_INT64
  {
    var m := MAX_INT64 + 1;
    var q := (2 * h + m) / (2 * m);
    assert 2 * h + m == q * (2 * m) + (2 * h + m) % (2 * m);
    assert (2 * h + m) % (2 * m) == 2 * (h + m / 2 - q * m);
  }

  /** If free space never falls over the samples, only the longest duration there is, as the limit, lets it alert. */
  lemma NotFillingAlerts(cfg: Config, d: Disk)
    requires NeverFalls(d.samples) && cfg.horizon <= MAX_INT64
    ensures Forecast(cfg, d).1.Some? <==> Enough(cfg, d.samples) && !d.firing && cfg.horizon == MAX_INT64
  {
    if Enough(cfg, d.samples) {
      var points := Points(d.samples[0].at, d.samples);
      NeverFallsClimbs(d.samples[0].at, d.samples);
      assert Slope(points) >= 0.0 by {
        ClimbingSlope(points);
      }
      assert EtaOf(d.samples) == MAX_INT64 by {
        hide Slope;
      }
      DoubledIsEven(cfg.horizon);
      LimitInRange(cfg, d.firing);
    }
  }

  /** A horizon is set in hours, so it is never the longest duration, which is odd: not even one that wraps around. */
  function HorizonOf(hours: int): Time {
    Wrap64(hours * 3600 * SECOND)
  }

  lemma HorizonIsEven(hours: int)
    ensures HorizonOf(hours) < MAX_INT64
  {
    DoubledIsEven(hours * 1800 * SECOND);
  }

  /** If free space never falls over the samples, there is no alert. */
  lemma NotFillingIsQuiet(cfg: Config, hours: int, d: Disk)
    requires NeverFalls(d.samples) && cfg.horizon == HorizonOf(hours)
    ensures Forecast(cfg, d).1.None?
  {
    hide Forecast, HorizonOf;
    HorizonIsEven(hours);
    NotFillingAlerts(cfg, d);
  }

  lemma LimitInRange(cfg: Config, firing: bool)
    requires cfg.horizon <= MAX_INT64
    ensures Limit(cfg, firing) <= MAX_INT64
  {
  }

  lemma PrefixNeverFalls(prefix: seq<Sample>, samples: seq<Sample>)
    requires prefix <= samples && NeverFalls(samples)
    ensures NeverFalls(prefix)
  {
  }

  lemma {:induction false} FilterNeverFalls(samples: seq<Sample>, keep: Sample -> bool)
    requires NeverFalls(samples)
    ensures NeverFalls(Filter(samples, keep))
    ensures forall s :: s in Filter(samples, keep) ==> s in samples
  {
    if samples != [] {
      var n := |samples| - 1;
      FilterNeverFalls(samples[..n], keep);
      var rest := Filter(samples[..n], keep);
      forall i | 0 <= i < |rest| ensures rest[i].at <= samples[n].at && rest[i].avail <= samples[n].avail {
        assert rest[i] in samples[..n];
      }
    }
  }

  ghost predicate AllRead(samples: seq<Sample>, readings: seq<Sample>) {
    forall s :: s in samples ==> s in readings
  }

  lemma NeverFallsNext(samples: seq<Sample>, readings: seq<Sample>, s: Sample)
    requires NeverFalls(readings + [s]) && NeverFalls(samples) && AllRead(samples, readings)
    ensures NeverFalls(samples + [s])
  {
    forall i | 0 <= i < |samples| ensures samples[i].at <= s.at && samples[i].avail <= s.avail {
      assert samples[i] in readings;
      var k :| 0 <= k < |readings| && readings[k] == samples[i];
      assert (readings + [s])[k] == readings[k] && (readings + [s])[|readings|] == s;
    }
  }

  lemma StepNeverFalls(cfg: Config, d: Disk, readings: seq<Sample>, s: Step)
    requires NeverFalls(readings + Reading(s)) && NeverFalls(d.samples) && AllRead(d.samples, readings)
    ensures NeverFalls(Applied(cfg, d, s).0.samples) && AllRead(Applied(cfg, d, s).0.samples, readings + Reading(s))
  {
    hide Applied, Trim, NeverFalls;
    SamplesApplied(cfg, d, s);
    var cutoff := s.now - cfg.window;
    FilterNeverFalls(d.samples, IsAfter(cutoff));
    if s.Poll? && s.reading.Some? {
      var more := d.samples + [Sample(s.now, s.reading.value)];
      NeverFallsNext(d.samples, readings, Sample(s.now, s.reading.value));
      assert InOrder(more) by { NeverFallsInOrder(more); }
      TrimIsFrom(more, cutoff);
      FilterNeverFalls(more, IsFrom(cutoff));
    }
  }

  lemma NeverFallsInOrder(samples: seq<Sample>)
    requires NeverFalls(samples)
    ensures InOrder(samples)
  {
  }

  lemma {:induction false} KeptNeverFalls(cfg: Config, steps: seq<Step>)
    requires NeverFalls(Readings(steps))
    ensures NeverFalls(State(cfg, steps).samples) && AllRead(State(cfg, steps).samples, Readings(steps))
    decreases |steps|
  {
    if steps != [] {
      hide Applied, NeverFalls, AllRead, Reading;
      var n := |steps| - 1;
      PrefixNeverFalls(Readings(steps[..n]), Readings(steps));
      KeptNeverFalls(cfg, steps[..n]);
      StepNeverFalls(cfg, State(cfg, steps[..n]), Readings(steps[..n]), steps[n]);
    } else {
      NoneFalls(cfg);
    }
  }

  lemma NoneFalls(cfg: Config)
    ensures NeverFalls(State(cfg, []).samples) && AllRead(State(cfg, []).samples, Readings([]))
  {
  }

  /**
   * Over any run of checks and restarts in which the free space read never falls, there is never an alert and never an
   * open episode.
   */
  lemma {:induction false} NeverFillingNeverAlerts(cfg: Config, hours: int, steps: seq<Step>)
    requires NeverFalls(Readings(steps)) && cfg.horizon == HorizonOf(hours)
    ensures !State(cfg, steps).firing
    ensures steps != [] ==> Told(cfg, steps) == None
    decreases |steps|
  {
    if steps != [] {
      hide Forecast, Sampled, NeverFalls, HorizonOf, Reading;
      var n := |steps| - 1;
      var s, d := steps[n], State(cfg, steps[..n]);
      PrefixNeverFalls(Readings(steps[..n]), Readings(steps));
      NeverFillingNeverAlerts(cfg, hours, steps[..n]);
      KeptNeverFalls(cfg, steps);
      if s.Poll? && s.reading.Some? {
        QuietForecast(cfg, hours, Sampled(cfg, d, s.reading.value, s.now));
      }
    }
  }

  lemma QuietForecast(cfg: Config, hours: int, d: Disk)
    requires NeverFalls(Forecast(cfg, d).0.samples) && cfg.horizon == HorizonOf(hours)
    ensures Forecast(cfg, d).1.None? && (Forecast(cfg, d).0.firing ==> d.firing)
  {
    hide EtaOf, HorizonOf;
    NotFillingIsQuiet(cfg, hours, d);
  }

  // ---- Hysteresis ----

  lemma EtaSign(samples: seq<Sample>)
    requires samples != []
    ensures 0 <= EtaOf(samples) <= MAX_INT64
  {
    hide Slope;
    var slope, avail := Slope(Points(samples[0].at, samples)), samples[|samples| - 1].avail as real;
    if slope < 0.0 {
      Ratio(avail, -slope);
    }
  }

  lemma DoubledLimit(h: Time)
    requires 0 < h <= MAX_INT64
    ensures Wrap64(2 * h) == if h <= MAX_INT64 / 2 then 2 * h else 2 * h - 2 * (MAX_INT64 + 1)
  {
    var m := 2 * (MAX_INT64 + 1);
    if h > MAX_INT64 / 2 {
      assert (2 * h + MAX_INT64 + 1) == (2 * h + MAX_INT64 + 1 - m) + m;
    }
  }

  /**
   * An episode opens when the time left is within the horizon and, for a horizon up to half the longest duration, closes
   * when it is more than twice that. Above, twice the horizon has wrapped around to below zero, and the next check that
   * has enough to go by closes any episode.
   */
  lemma ClosesAboveTwiceTheHorizon(cfg: Config, d: Disk)
    requires Enough(cfg, d.samples) && 0 < cfg.horizon <= MAX_INT64
    ensures !d.firing ==> (Forecast(cfg, d).0.firing <==> EtaOf(d.samples) <= cfg.horizon)
    ensures d.firing ==>
      (Forecast(cfg, d).0.firing <==> cfg.horizon <= MAX_INT64 / 2 && EtaOf(d.samples) <= 2 * cfg.horizon)
  {
    hide EtaOf;
    EtaSign(d.samples);
    DoubledLimit(cfg.horizon);
  }

  /** Two million hours is such a horizon. */
  lemma TwoMillionHoursWraps(cfg: Config, d: Disk)
    requires cfg.horizon == HorizonOf(2_000_000) && Enough(cfg, d.samples) && d.firing
    ensures 0 < cfg.horizon && !Forecast(cfg, d).0.firing
  {
    hide Forecast, EtaOf;
    ClosesAboveTwiceTheHorizon(cfg, d);
  }

  // ---- A disk that fills steadily ----

  /** Free space falls by `rate` bytes a second. */
  ghost predicate FillsSteadily(samples: seq<Sample>, rate: real) {
    samples != [] && forall i :: 0 <= i < |samples| ==>
      samples[i].avail as real == At(samples[0].avail as real, -rate, PointOf(samples[0].at, samples[i]).x)
  }

  /** When there is enough to go by, the fit is well defined: some two samples lie apart. */
  lemma EnoughIsSpread(cfg: Config, samples: seq<Sample>)
    requires Enough(cfg, samples) && cfg.window >= 4
    ensures Den(Points(samples[0].at, samples)) > 0.0
  {
    var points := Points(samples[0].at, samples);
    DenominatorSign(points);
    assert points[0].x != points[|points| - 1].x;
  }

  lemma SteadySlope(cfg: Config, samples: seq<Sample>, rate: real)
    requires Enough(cfg, samples) && cfg.window >= 4 && FillsSteadily(samples, rate)
    ensures Slope(Points(samples[0].at, samples)) == -rate
  {
    hide Slope, Den, At;
    var points := Points(samples[0].at, samples);
    EnoughIsSpread(cfg, samples);
    DenominatorSign(points);
    SlopeOfLine(points, samples[0].avail as real, -rate);
  }

  /**
   * On a disk that fills steadily the forecast is exact, or the longest duration if it would be that or longer, and there
   * is an alert exactly when it is within the limit.
   */
  lemma SteadyFillIsForecast(cfg: Config, d: Disk, rate: real)
    requires Enough(cfg, d.samples) && cfg.window >= 4 && rate > 0.0 && FillsSteadily(d.samples, rate)
    ensures var seconds := d.samples[|d.samples| - 1].avail as real / rate;
      var left := if seconds < (MAX_INT64 / SECOND) as real then (seconds * SECOND as real).Floor else MAX_INT64;
      Forecast(cfg, d).1 == if left <= Limit(cfg, d.firing) then Some(left) else None
  {
    hide Slope, FillsSteadily;
    SteadySlope(cfg, d.samples, rate);
    assert -(-rate) == rate;
  }

  /** A steady disk is full after the forecast, to the nanosecond: the line hasn't reached zero before and has one later. */
  lemma ForecastIsWhenFull(avail: nat, rate: real)
    requires rate > 0.0
    ensures var left := (avail as real / rate * SECOND as real).Floor;
      && left >= 0
      && avail as real - rate * (left as real / SECOND as real) >= 0.0
      && avail as real - rate * ((left + 1) as real / SECOND as real) < 0.0
  {
    var secs := avail as real / rate;
    assert secs * rate == avail as real;
    var left := (secs * SECOND as real).Floor;
    assert left as real / SECOND as real <= secs < (left + 1) as real / SECOND as real;
    Ratio(avail as real, rate);
    Crossing(avail as real, rate, secs, left as real / SECOND as real, (left + 1) as real / SECOND as real);
  }

  lemma Crossing(avail: real, rate: real, secs: real, lo: real, hi: real)
    requires rate > 0.0 && secs * rate == avail && lo <= secs < hi
    ensures avail - rate * lo >= 0.0
    ensures avail - rate * hi < 0.0
  {
    var before, past := secs - lo, hi - secs;
    assert rate * before == avail - rate * lo;
    assert rate * past == rate * hi - avail;
    assert rate * past > 0.0;
  }

  // ---- What doesn't matter ----

  function Moved(samples: seq<Sample>, dt: Time, more: nat): (s: seq<Sample>)
    ensures |s| == |samples|
    ensures forall i :: 0 <= i < |samples| ==> s[i] == Sample(samples[i].at + dt, samples[i].avail + more)
  {
    seq(|samples|, i requires 0 <= i < |samples| => Sample(samples[i].at + dt, samples[i].avail + more))
  }

  /** The fill rate is the same whatever instant is the origin, whenever the samples were taken, and however much space there is. */
  lemma RateIgnoresMoves(samples: seq<Sample>, t0: Time, t1: Time, dt: Time, more: nat)
    ensures Slope(Points(t1, Moved(samples, dt, more))) == Slope(Points(t0, samples))
  {
    hide Slope;
    var dx := (dt + t0 - t1) as real / SECOND as real;
    var moved, shifted := Points(t1, Moved(samples, dt, more)), Shifted(Points(t0, samples), dx, more as real);
    forall i | 0 <= i < |samples| ensures moved[i] == shifted[i] {
      assert samples[i].at + dt - t1 == (samples[i].at - t0) + (dt + t0 - t1);
    }
    assert moved == shifted;
    SlopeIgnoresShifts(Points(t0, samples), dx, more as real);
  }

  // ---- Restarts ----

  ghost predicate HasAt(samples: seq<Sample>, at: Time) {
    exists i :: 0 <= i < |samples| && samples[i].at == at
  }

  lemma {:induction false} AfterAndAt(samples: seq<Sample>, a: Time)
    ensures |From(After(samples, a), a)| <= |From(samples, a)|
    ensures From(After(samples, a), a) == From(samples, a) <==> !HasAt(samples, a)
    ensures From(After(samples, a), a) != From(samples, a) ==> |From(After(samples, a), a)| < |From(samples, a)|
  {
    if samples != [] {
      var n := |samples| - 1;
      AfterAndAt(samples[..n], a);
      if samples[n].at > a {
        assert After(samples, a)[..|After(samples, a)| - 1] == After(samples[..n], a);
      }
      if HasAt(samples[..n], a) {
        var i :| 0 <= i < n && samples[..n][i].at == a;
        assert samples[i].at == a;
      }
      if HasAt(samples, a) && samples[n].at != a {
        var i :| 0 <= i < |samples| && samples[i].at == a;
        assert samples[..n][i].at == a;
      }
    }
  }

  /**
   * A save and a load at `restart` don't show in a next check that reads the disk, except when that check comes at
   * the very instant of the load and there is a sample exactly one window old: checks keep it, loading doesn't.
   */
  lemma RestartDoesntShow(cfg: Config, d: Disk, restart: Time, avail: nat, now: Time)
    requires InOrder(d.samples) && UpTo(d.samples, restart) && restart <= now
    ensures Sampled(cfg, Load(cfg, Save(d), restart), avail, now) == Sampled(cfg, d, avail, now)
      <==> !(now == restart && HasAt(d.samples, restart - cfg.window))
  {
    hide Trim, Filter;
    var kept := After(d.samples, restart - cfg.window);
    var s, cutoff := Sample(now, avail), now - cfg.window;
    FilterOrder(d.samples, IsAfter(restart - cfg.window), restart);
    TrimIsFrom(kept + [s], cutoff);
    TrimIsFrom(d.samples + [s], cutoff);
    FilterAppend(kept, s, IsFrom(cutoff));
    FilterAppend(d.samples, s, IsFrom(cutoff));
    if now > restart {
      FilterAgain(d.samples, IsAfter(restart - cfg.window), IsFrom(cutoff));
    } else {
      AfterAndAt(d.samples, cutoff);
    }
  }

  ghost predicate HasOld(samples: seq<Sample>, cutoff: Time) {
    exists i :: 0 <= i < |samples| && samples[i].at <= cutoff
  }

  lemma AllKept(samples: seq<Sample>, cutoff: Time)
    ensures After(samples, cutoff) == samples <==> !HasOld(samples, cutoff)
  {
    if HasOld(samples, cutoff) {
      var i :| 0 <= i < |samples| && samples[i].at <= cutoff;
      FilterMembers(samples, IsAfter(cutoff));
      assert samples[i] in samples;
    } else {
      FilterAll(samples, IsAfter(cutoff));
    }
  }

  /** What a check of an open episode tells by these samples. */
  function Warning(cfg: Config, samples: seq<Sample>): Option<Time> {
    if Enough(cfg, samples) && EtaOf(samples) <= Wrap64(2 * cfg.horizon) then Some(EtaOf(samples)) else None
  }

  /**
   * A next check that can't read the disk has only what was loaded to go by. It comes to the same state exactly when
   * loading dropped nothing: when no sample was a window old by then. It tells the same exactly when no episode is open
   * or the samples left give the same warning.
   */
  lemma UnreadCheckAfterRestart(cfg: Config, d: Disk, restart: Time, now: Time)
    ensures Checked(cfg, Load(cfg, Save(d), restart), None, now) == Checked(cfg, d, None, now)
      <==> !HasOld(d.samples, restart - cfg.window)
    ensures Checked(cfg, Load(cfg, Save(d), restart), None, now).1 == Checked(cfg, d, None, now).1
      <==> !d.firing || Warning(cfg, After(d.samples, restart - cfg.window)) == Warning(cfg, d.samples)
  {
    hide EtaOf, After;
    AllKept(d.samples, restart - cfg.window);
    SamplesAfter(cfg, d, None, now);
    SamplesAfter(cfg, Load(cfg, Save(d), restart), None, now);
  }

  lemma {:induction false} NoneAfter(samples: seq<Sample>, cutoff: Time)
    requires UpTo(samples, cutoff)
    ensures After(samples, cutoff) == []
  {
    if samples != [] {
      NoneAfter(samples[..|samples| - 1], cutoff);
    }
  }

  /** After a window or more without a reading, a restart and a check that can't read the disk tell of no episode, open or not. */
  lemma LongOutageIsForgotten(cfg: Config, d: Disk, restart: Time, now: Time)
    requires UpTo(d.samples, restart - cfg.window)
    ensures Checked(cfg, Load(cfg, Save(d), restart), None, now).1 == None
  {
    hide EtaOf, After;
    NoneAfter(d.samples, restart - cfg.window);
  }

  // ---- A forecast that a restart forgets ----

  const SEVEN_MINUTES := Config(420 * SECOND, 43_200 * SECOND)

  /** A disk that has just run full, one byte a second. */
  const JUST_FULL := Disk([Sample(0, 210), Sample(105 * SECOND, 105), Sample(210 * SECOND, 0)], true, false)

  lemma JustFullFillsSteadily()
    ensures FillsSteadily(JUST_FULL.samples, 1.0)
  {
    assert PointOf(0, JUST_FULL.samples[0]).x == 0.0;
    assert PointOf(0, JUST_FULL.samples[1]).x == 105.0;
    assert PointOf(0, JUST_FULL.samples[2]).x == 210.0;
  }

  /** While the disk can't be read the open episode goes on, but not past a restart ten and a half minutes in. */
  lemma RestartForgetsAnUnreadDisk(restart: Time, now: Time)
    requires restart >= 630 * SECOND
    ensures Checked(SEVEN_MINUTES, JUST_FULL, None, now).1 == Some(0)
    ensures Checked(SEVEN_MINUTES, Load(SEVEN_MINUTES, Save(JUST_FULL), restart), None, now).1 == None
  {
    hide EtaOf, FillsSteadily;
    JustFullFillsSteadily();
    assert 0 as real / 1.0 * SECOND as real == 0.0;
    SteadyFillIsForecast(SEVEN_MINUTES, JUST_FULL.(failing := true), 1.0);
    LongOutageIsForgotten(SEVEN_MINUTES, JUST_FULL, restart, now);
  }

  // ---- Paths ----

  /** Checking several paths is checking each alone. */
  lemma {:induction false} PathsDontMix(cfg: Config, disks: map<string, Disk>, paths: seq<string>, readings: map<string, nat>, now: Time, path: string)
    requires forall i, j :: 0 <= i < j < |paths| ==> paths[i] != paths[j]
    ensures var (after, alerts) := CheckedAll(cfg, disks, paths, readings, now);
      var reading := if path in readings then Some(readings[path]) else None;
      var (disk, eta) := Checked(cfg, DiskAt(disks, path), reading, now);
      && DiskAt(after, path) == (if path in paths then disk else DiskAt(disks, path))
      && forall t :: Alert(path, t, now) in alerts <==> path in paths && eta == Some(t)
  {
    if paths != [] {
      hide Checked;
      var n := |paths| - 1;
      PathsDontMix(cfg, disks, paths[..n], readings, now, path);
      assert path in paths <==> path in paths[..n] || path == paths[n];
      if path == paths[n] {
        assert path !in paths[..n];
      }
    }
  }

  /** The paths that have an alert. */
  function Alerted(alerts: seq<Alert>): (paths: seq<string>)
    ensures |paths| == |alerts| && forall i :: 0 <= i < |alerts| ==> paths[i] == alerts[i].path
  {
    seq(|alerts|, i requires 0 <= i < |alerts| => alerts[i].path)
  }

  ghost predicate IsSubsequence(part: seq<string>, all: seq<string>)
    decreases |all|
  {
    if all == [] then part == []
    else
      var rest := all[..|all| - 1];
      || IsSubsequence(part, rest)
      || (part != [] && part[|part| - 1] == all[|all| - 1] && IsSubsequence(part[..|part| - 1], rest))
  }

  /** Alerts come in the order of the paths. */
  lemma {:induction false} AlertsInOrder(cfg: Config, disks: map<string, Disk>, paths: seq<string>, readings: map<string, nat>, now: Time)
    ensures IsSubsequence(Alerted(CheckedAll(cfg, disks, paths, readings, now).1), paths)
    decreases |paths|
  {
    if paths != [] {
      hide Checked;
      var n := |paths| - 1;
      AlertsInOrder(cfg, disks, paths[..n], readings, now);
      var before, after := CheckedAll(cfg, disks, paths[..n], readings, now).1, CheckedAll(cfg, disks, paths, readings, now).1;
      if after != before {
        assert Alerted(after)[..|before|] == Alerted(before);
      }
    }
  }

  /** Enough to go by: three samples or more, over a quarter of the window or more; windows are whole minutes. */
  lemma EnoughIsAQuarter(cfg: Config, samples: seq<Sample>)
    requires cfg.window % 4 == 0
    ensures Enough(cfg, samples) <==> |samples| >= 3 && 4 * (samples[|samples| - 1].at - samples[0].at) >= cfg.window
  {
  }
}

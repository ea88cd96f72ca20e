/** The gate in front of threshold alerts: sustained to open, with hysteresis to close. */
module Gates {
  import opened Base

  const REARM_GAP := 5.0

  datatype Config = Config(threshold: real, sustain: Time)

  datatype Memory = Memory(aboveSince: Option<Time>, firing: bool)

  const SHUT := Memory(None, false)

  datatype Sample = Sample(at: Time, value: real)

  /** Once open, the gate closes below this. */
  function ClosingLevel(cfg: Config): real {
    cfg.threshold - (if REARM_GAP < cfg.threshold / 2.0 then REARM_GAP else cfg.threshold / 2.0)
  }

  function Updated(cfg: Config, m: Memory, s: Sample): Memory {
    if m.firing then if s.value < ClosingLevel(cfg) then SHUT else m
    else if s.value < cfg.threshold then SHUT
    else
      var since := if m.aboveSince.Some? then m.aboveSince.value else s.at;
      Memory(Some(since), s.at - since >= cfg.sustain)
  }

  class Gate {
    const cfg: Config
    var aboveSince: Option<Time>
    var firing: bool

    function Mem(): Memory
      reads this
    {
      Memory(aboveSince, firing)
    }

    constructor (cfg: Config)
      ensures this.cfg == cfg && Mem() == SHUT
    {
      this.cfg := cfg;
      aboveSince, firing := None, false;
    }

    method Update(now: Time, value: real) returns (open: bool)
      modifies this
      ensures Mem() == Updated(cfg, old(Mem()), Sample(now, value)) && open == firing
    {
      if firing {
        if value < ClosingLevel(cfg) {
          firing := false;
          aboveSince := None;
        }
        return firing;
      }
      if value < cfg.threshold {
        aboveSince := None;
        return false;
      }
      if aboveSince.None? {
        aboveSince := Some(now);
      }
      firing := now - aboveSince.value >= cfg.sustain;
      return firing;
    }
  }

  // ---- The gate against everything it has seen ----

  function After(cfg: Config, h: seq<Sample>): Memory {
    if h == [] then SHUT else Updated(cfg, After(cfg, h[..|h| - 1]), h[|h| - 1])
  }

  ghost predicate Monotone(h: seq<Sample>) {
    forall i, j :: 0 <= i <= j < |h| ==> h[i].at <= h[j].at
  }

  /** Every sample from i to j is at or above the level. */
  ghost predicate AtLeast(h: seq<Sample>, i: nat, j: nat, level: real) {
    j <= |h| && forall k :: i <= k < j ==> h[k].value >= level
  }

  /** By sample j it has been at or above the threshold for long enough, since sample i. */
  ghost predicate Sustained(cfg: Config, h: seq<Sample>, i: nat, j: nat) {
    i <= j < |h| && AtLeast(h, i, j + 1, cfg.threshold) && h[j].at - h[i].at >= cfg.sustain
  }

  /** It was sustained at j, and hasn't dropped below the closing level since. */
  ghost predicate HeldSince(cfg: Config, h: seq<Sample>, i: nat, j: nat) {
    Sustained(cfg, h, i, j) && AtLeast(h, j + 1, |h|, ClosingLevel(cfg))
  }

  ghost predicate Held(cfg: Config, h: seq<Sample>) {
    exists i: nat, j: nat :: HeldSince(cfg, h, i, j)
  }

  /** Sample i starts the current run at or above the threshold. */
  ghost predicate StartsRun(cfg: Config, h: seq<Sample>, i: nat) {
    i < |h| && AtLeast(h, i, |h|, cfg.threshold)
  }

  lemma ClosingBelowThreshold(cfg: Config)
    requires cfg.threshold >= 0.0
    ensures ClosingLevel(cfg) <= cfg.threshold
  {
  }

  /** Any positive threshold can be closed again: five points below it, or, when it is under ten, at half of it. */
  lemma CanAlwaysClose(cfg: Config)
    requires cfg.threshold > 0.0
    ensures 0.0 < ClosingLevel(cfg) < cfg.threshold
    ensures cfg.threshold >= 10.0 ==> ClosingLevel(cfg) == cfg.threshold - 5.0
    ensures cfg.threshold < 10.0 ==> ClosingLevel(cfg) == cfg.threshold / 2.0
  {
  }

  /** What a shut gate remembers: the oldest sample of the current run. */
  ghost predicate Remembers(cfg: Config, h: seq<Sample>, m: Memory) {
    && (m.aboveSince.None? ==> forall i: nat :: !StartsRun(cfg, h, i))
    && (m.aboveSince.Some? ==>
          && (exists i: nat :: StartsRun(cfg, h, i) && h[i].at == m.aboveSince.value)
          && (forall i: nat :: StartsRun(cfg, h, i) ==> m.aboveSince.value <= h[i].at))
  }

  lemma Extended(cfg: Config, h: seq<Sample>, s: Sample, i: nat)
    ensures i < |h| ==> (StartsRun(cfg, h + [s], i) <==> StartsRun(cfg, h, i) && s.value >= cfg.threshold)
    ensures StartsRun(cfg, h + [s], |h|) <==> s.value >= cfg.threshold
  {
    var g := h + [s];
    assert g[|h|] == s;
    if i < |h| && StartsRun(cfg, g, i) {
      assert forall k :: i <= k < |h| ==> g[k] == h[k];
    }
  }

  lemma StillHeld(cfg: Config, h: seq<Sample>, s: Sample)
    requires Held(cfg, h) && s.value >= ClosingLevel(cfg)
    ensures Held(cfg, h + [s])
  {
    var i: nat, j: nat :| HeldSince(cfg, h, i, j);
    assert HeldSince(cfg, h + [s], i, j);
  }

  /** Anything below the closing level ends it, whenever it began. */
  lemma NotHeld(cfg: Config, h: seq<Sample>, s: Sample)
    requires cfg.threshold >= 0.0 && s.value < ClosingLevel(cfg)
    ensures !Held(cfg, h + [s])
    ensures forall i: nat :: !StartsRun(cfg, h + [s], i)
  {
    ClosingBelowThreshold(cfg);
    var g := h + [s];
    assert g[|h|] == s;
    forall i: nat ensures !StartsRun(cfg, g, i) {
      if i < |g| {
        assert i <= |h| < |g|;
      }
    }
  }

  /** What holds a gate open either did before, or just got there. */
  lemma NewlyHeld(cfg: Config, h: seq<Sample>, s: Sample)
    requires !Held(cfg, h)
    ensures Held(cfg, h + [s]) <==> exists i: nat :: Sustained(cfg, h + [s], i, |h|)
  {
    var g := h + [s];
    if Held(cfg, g) {
      var i: nat, j: nat :| HeldSince(cfg, g, i, j);
      if j < |h| {
        assert forall k :: 0 <= k < |h| ==> g[k] == h[k];
        assert HeldSince(cfg, h, i, j);
      }
    }
    if i: nat :| Sustained(cfg, g, i, |h|) {
      assert HeldSince(cfg, g, i, |h|);
    }
  }

  lemma RunFromStart(cfg: Config, h: seq<Sample>, s: Sample, i: nat)
    ensures Sustained(cfg, h + [s], i, |h|) <==> StartsRun(cfg, h + [s], i) && s.at - (h + [s])[i].at >= cfg.sustain
  {
  }

  lemma OpenStep(cfg: Config, h: seq<Sample>, m: Memory, s: Sample)
    requires !m.firing && Remembers(cfg, h, m) && s.value >= cfg.threshold && (h != [] ==> Monotone(h + [s]))
    ensures Remembers(cfg, h + [s], Updated(cfg, m, s))
    ensures Updated(cfg, m, s).firing <==> exists i: nat :: Sustained(cfg, h + [s], i, |h|)
  {
    var g, m' := h + [s], Updated(cfg, m, s);
    var since := m'.aboveSince.value;
    assert exists i: nat :: StartsRun(cfg, g, i) && g[i].at == since by {
      if m.aboveSince.Some? {
        var i: nat :| StartsRun(cfg, h, i) && h[i].at == since;
        Extended(cfg, h, s, i);
      } else {
        Extended(cfg, h, s, |h|);
        assert StartsRun(cfg, g, |h|) && g[|h|].at == since;
      }
    }
    forall i: nat | StartsRun(cfg, g, i) ensures since <= g[i].at {
      Extended(cfg, h, s, i);
      if m.aboveSince.Some? && i == |h| {
        var k: nat :| StartsRun(cfg, h, k) && h[k].at == since;
        assert g[k].at <= g[i].at;
      }
    }
    forall i: nat ensures Sustained(cfg, g, i, |h|) <==> StartsRun(cfg, g, i) && s.at - g[i].at >= cfg.sustain {
      RunFromStart(cfg, h, s, i);
    }
  }

  lemma BelowStep(cfg: Config, h: seq<Sample>, s: Sample)
    requires s.value < cfg.threshold
    ensures Remembers(cfg, h + [s], SHUT)
    ensures !exists i: nat :: Sustained(cfg, h + [s], i, |h|)
  {
    assert (h + [s])[|h|] == s;
  }

  /**
   * With a clock that doesn't run backwards, the gate is open exactly when the value has at some point been at or above
   * the threshold, in every sample, for the sustain time, and in no sample since has it dropped below the closing level.
   */
  lemma {:induction false} OpenExactlyWhenHeld(cfg: Config, h: seq<Sample>)
    requires cfg.threshold >= 0.0 && Monotone(h)
    ensures After(cfg, h).firing <==> Held(cfg, h)
    ensures !After(cfg, h).firing ==> Remembers(cfg, h, After(cfg, h))
  {
    if h != [] {
      var n := |h| - 1;
      var m, s := After(cfg, h[..n]), h[n];
      assert h == h[..n] + [s];
      OpenExactlyWhenHeld(cfg, h[..n]);
      if m.firing {
        if s.value < ClosingLevel(cfg) {
          NotHeld(cfg, h[..n], s);
        } else {
          StillHeld(cfg, h[..n], s);
        }
      } else {
        NewlyHeld(cfg, h[..n], s);
        if s.value < cfg.threshold {
          BelowStep(cfg, h[..n], s);
        } else {
          OpenStep(cfg, h[..n], m, s);
        }
      }
    }
  }
}

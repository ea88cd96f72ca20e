/** The cooldown on one-off alerts, against a record of every alert that ever passed. */
module Cooldowns {
  import opened Base

  /** Whether an alert is suppressed, and the map of last alerts afterwards. */
  function Cool(cooldown: Time, last: map<string, Time>, key: string, now: Time): (map<string, Time>, bool) {
    var recent := map k | k in last && now - last[k] < cooldown :: last[k];
    if key in recent then (recent, true)
    else (if cooldown > 0 then recent[key := now] else recent, false)
  }

  /** A one-off alert, asking to be sent. */
  datatype Ask = Ask(key: string, now: Time)

  function Run(cooldown: Time, asks: seq<Ask>): map<string, Time> {
    if asks == [] then map[]
    else
      var n := |asks| - 1;
      Cool(cooldown, Run(cooldown, asks[..n]), asks[n].key, asks[n].now).0
  }

  predicate Passes(cooldown: Time, asks: seq<Ask>, i: nat)
    requires i < |asks|
  {
    !Cool(cooldown, Run(cooldown, asks[..i]), asks[i].key, asks[i].now).1
  }

  ghost predicate Clocked(asks: seq<Ask>) {
    forall i, j :: 0 <= i <= j < |asks| ==> asks[i].now <= asks[j].now
  }

  /** Some alert with this key passed less than the cooldown ago. */
  ghost predicate PassedLately(cooldown: Time, asks: seq<Ask>, key: string, now: Time) {
    exists i :: 0 <= i < |asks| && asks[i].key == key && Passes(cooldown, asks, i) && now - asks[i].now < cooldown
  }

  lemma PassesStill(cooldown: Time, asks: seq<Ask>, n: nat, i: nat)
    requires i < n <= |asks|
    ensures Passes(cooldown, asks[..n], i) == Passes(cooldown, asks, i)
  {
    assert asks[..n][..i] == asks[..i];
  }

  lemma PassedMore(cooldown: Time, asks: seq<Ask>, key: string, now: Time)
    requires asks != []
    ensures var n := |asks| - 1;
      PassedLately(cooldown, asks, key, now) <==>
        PassedLately(cooldown, asks[..n], key, now)
        || (asks[n].key == key && Passes(cooldown, asks, n) && now - asks[n].now < cooldown)
  {
    var n := |asks| - 1;
    forall i | 0 <= i < n ensures Passes(cooldown, asks[..n], i) == Passes(cooldown, asks, i) {
      PassesStill(cooldown, asks, n, i);
    }
    if PassedLately(cooldown, asks[..n], key, now) {
      var i :| 0 <= i < n && asks[..n][i].key == key && Passes(cooldown, asks[..n], i) && now - asks[..n][i].now < cooldown;
      assert asks[i].key == key && Passes(cooldown, asks, i);
    }
    if i :| 0 <= i < |asks| && asks[i].key == key && Passes(cooldown, asks, i) && now - asks[i].now < cooldown {
      if i < n {
        assert asks[..n][i].key == key && Passes(cooldown, asks[..n], i);
      }
    }
  }

  /** Whether the map still says of a key that it passed lately, after one more alert asked. */
  lemma CoolStep(cooldown: Time, last: map<string, Time>, ask: Ask, key: string, now: Time)
    requires ask.now <= now
    ensures var (after, suppressed) := Cool(cooldown, last, ask.key, ask.now);
      (key in after && now - after[key] < cooldown) <==>
        (key in last && now - last[key] < cooldown) || (ask.key == key && !suppressed && now - ask.now < cooldown)
  {
  }

  /** The map tells of every key whether it passed lately, although it forgets what is older. */
  lemma {:induction false} MapIsRecord(cooldown: Time, asks: seq<Ask>, key: string, now: Time)
    requires Clocked(asks) && forall i :: 0 <= i < |asks| ==> asks[i].now <= now
    ensures var last := Run(cooldown, asks); (key in last && now - last[key] < cooldown) <==> PassedLately(cooldown, asks, key, now)
    decreases |asks|
  {
    if asks != [] {
      var n := |asks| - 1;
      hide Cool, PassedLately;
      PassedMore(cooldown, asks, key, now);
      MapIsRecord(cooldown, asks[..n], key, now);
      CoolStep(cooldown, Run(cooldown, asks[..n]), asks[n], key, now);
    }
  }

  /**
   An alert passes exactly when none with its key passed less than the cooldown ago, going by a record
   that is never pruned; so alerts that pass are at least the cooldown apart.
   */
  lemma CooldownIsExact(cooldown: Time, asks: seq<Ask>, i: nat)
    requires Clocked(asks) && i < |asks|
    ensures Passes(cooldown, asks, i) <==> !PassedLately(cooldown, asks[..i], asks[i].key, asks[i].now)
    ensures forall j :: 0 <= j < i && asks[j].key == asks[i].key && Passes(cooldown, asks, i) && Passes(cooldown, asks, j) ==>
      asks[i].now - asks[j].now >= cooldown
  {
    MapIsRecord(cooldown, asks[..i], asks[i].key, asks[i].now);
    forall j | 0 <= j < i && asks[j].key == asks[i].key && Passes(cooldown, asks, i) && Passes(cooldown, asks, j)
      ensures asks[i].now - asks[j].now >= cooldown
    {
      PassesStill(cooldown, asks, i, j);
      assert asks[..i][j] == asks[j];
    }
  }
}

/** The hourly budget for analyses. */
module Budgets {
  import opened Base
  import opened Filters

  const HOUR: Time := 3600 * 1_000_000_000

  function Allow(maxPerHour: int, calls: seq<Time>, now: Time): (seq<Time>, bool) {
    if maxPerHour <= 0 then (calls, true)
    else
      var kept := Later(calls, now - HOUR);
      if |kept| >= maxPerHour then (kept, false) else (kept + [now], true)
  }

  class Budget {
    const maxPerHour: int
    var calls: seq<Time>

    constructor (maxPerHour: int)
      ensures this.maxPerHour == maxPerHour && calls == []
    {
      this.maxPerHour := maxPerHour;
      calls := [];
    }

    method Take(now: Time) returns (ok: bool)
      modifies this
      ensures (calls, ok) == Allow(maxPerHour, old(calls), now)
    {
      if maxPerHour <= 0 {
        return true;
      }
      PruneCalls(now - HOUR);
      if |calls| >= maxPerHour {
        return false;
      }
      calls := calls + [now];
      ok := true;
    }

    method PruneCalls(cutoff: Time)
      modifies this
      ensures calls == Later(old(calls), cutoff)
    {
      var kept := [];
      for i := 0 to |calls|
        invariant calls == old(calls) && kept == Later(calls[..i], cutoff)
      {
        FilterNext(calls, i, IsLater(cutoff));
        if calls[i] > cutoff {
          kept := kept + [calls[i]];
        }
      }
      assert calls[..|calls|] == calls;
      calls := kept;
    }
  }

  /** What is left in memory after asking at all these times. */
  function Run(maxPerHour: int, asks: seq<Time>): seq<Time> {
    if asks == [] then [] else Allow(maxPerHour, Run(maxPerHour, asks[..|asks| - 1]), asks[|asks| - 1]).0
  }

  /** Every call that was ever accepted. */
  function Accepted(maxPerHour: int, asks: seq<Time>): seq<Time> {
    if asks == [] then []
    else
      var n := |asks| - 1;
      Accepted(maxPerHour, asks[..n]) + (if Allow(maxPerHour, Run(maxPerHour, asks[..n]), asks[n]).1 then [asks[n]] else [])
  }

  /** The accepted calls in the hour up to t. */
  function InHour(calls: seq<Time>, t: Time): nat {
    if calls == [] then 0
    else InHour(calls[..|calls| - 1], t) + (if t - HOUR < calls[|calls| - 1] <= t then 1 else 0)
  }

  ghost predicate Clocked(asks: seq<Time>) {
    forall i, j :: 0 <= i <= j < |asks| ==> asks[i] <= asks[j]
  }

  lemma InHourAppend(calls: seq<Time>, c: Time, t: Time)
    ensures InHour(calls + [c], t) == InHour(calls, t) + (if t - HOUR < c <= t then 1 else 0)
  {
    assert (calls + [c])[..|calls|] == calls;
  }

  lemma LastAsk(maxPerHour: int, asks: seq<Time>, t: Time)
    requires maxPerHour > 0
    ensures var before, all := Run(maxPerHour, asks), Accepted(maxPerHour, asks);
      var ok := Allow(maxPerHour, before, t).1;
      && Run(maxPerHour, asks + [t]) == (if ok then Later(before, t - HOUR) + [t] else Later(before, t - HOUR))
      && Accepted(maxPerHour, asks + [t]) == (if ok then all + [t] else all)
  {
    assert (asks + [t])[..|asks|] == asks;
  }

  lemma StillAgree(kept: seq<Time>, all: seq<Time>, t: Time, now: Time, ok: bool)
    requires Later(kept, t - HOUR) == Later(all, t - HOUR) && t <= now
    ensures var kept', all' := Later(kept, t - HOUR), all;
      Later(if ok then kept' + [t] else kept', now - HOUR) == Later(if ok then all' + [t] else all', now - HOUR)
  {
    LaterAgain(kept, t - HOUR, now - HOUR);
    LaterAgain(all, t - HOUR, now - HOUR);
    LaterAppend(Later(kept, t - HOUR), t, now - HOUR);
    LaterAppend(all, t, now - HOUR);
  }

  lemma OneMoreAsk(maxPerHour: int, asks: seq<Time>, t: Time, now: Time)
    requires maxPerHour > 0 && t <= now
    requires Later(Run(maxPerHour, asks), t - HOUR) == Later(Accepted(maxPerHour, asks), t - HOUR)
    ensures Later(Run(maxPerHour, asks + [t]), now - HOUR) == Later(Accepted(maxPerHour, asks + [t]), now - HOUR)
  {
    LastAsk(maxPerHour, asks, t);
    StillAgree(Run(maxPerHour, asks), Accepted(maxPerHour, asks), t, now, Allow(maxPerHour, Run(maxPerHour, asks), t).1);
  }

  /** What memory forgets is out of reach of every later window. */
  lemma {:induction false} MemoryIsRecord(maxPerHour: int, asks: seq<Time>, now: Time)
    requires maxPerHour > 0 && Clocked(asks) && forall i :: 0 <= i < |asks| ==> asks[i] <= now
    ensures Later(Run(maxPerHour, asks), now - HOUR) == Later(Accepted(maxPerHour, asks), now - HOUR)
    decreases |asks|
  {
    if asks != [] {
      var n := |asks| - 1;
      MemoryIsRecord(maxPerHour, asks[..n], asks[n]);
      OneMoreAsk(maxPerHour, asks[..n], asks[n], now);
      assert asks == asks[..n] + [asks[n]];
    }
  }

  lemma {:induction false} InHourIsLater(calls: seq<Time>, t: Time)
    requires forall i :: 0 <= i < |calls| ==> calls[i] <= t
    ensures InHour(calls, t) == |Later(calls, t - HOUR)|
    decreases |calls|
  {
    if calls != [] {
      FilterNext(calls, |calls| - 1, IsLater(t - HOUR));
      assert calls[..|calls|] == calls;
      InHourIsLater(calls[..|calls| - 1], t);
    }
  }

  lemma {:induction false} AcceptedPast(maxPerHour: int, asks: seq<Time>, t: Time)
    requires forall i :: 0 <= i < |asks| ==> asks[i] <= t
    ensures forall i :: 0 <= i < |Accepted(maxPerHour, asks)| ==> Accepted(maxPerHour, asks)[i] <= t
    decreases |asks|
  {
    if asks != [] {
      AcceptedPast(maxPerHour, asks[..|asks| - 1], t);
    }
  }

  lemma ClockedBefore(asks: seq<Time>, t: Time)
    requires Clocked(asks + [t])
    ensures Clocked(asks) && forall i :: 0 <= i < |asks| ==> asks[i] <= t
  {
    var all := asks + [t];
    forall i | 0 <= i < |asks| ensures asks[i] <= t {
      assert all[i] == asks[i] && all[|asks|] == t;
    }
    forall i, j | 0 <= i <= j < |asks| ensures asks[i] <= asks[j] {
      assert all[i] == asks[i] && all[j] == asks[j];
    }
  }

  /** A call is refused exactly when the hour up to now holds the maximum, counting every call ever accepted. */
  lemma RefusedIffFull(maxPerHour: int, asks: seq<Time>, now: Time)
    requires maxPerHour > 0 && Clocked(asks + [now])
    ensures Allow(maxPerHour, Run(maxPerHour, asks), now).1 <==> InHour(Accepted(maxPerHour, asks), now) < maxPerHour
  {
    ClockedBefore(asks, now);
    MemoryIsRecord(maxPerHour, asks, now);
    AcceptedPast(maxPerHour, asks, now);
    InHourIsLater(Accepted(maxPerHour, asks), now);
  }

  lemma {:induction false} InHourShift(calls: seq<Time>, c: Time, t: Time)
    requires (forall i :: 0 <= i < |calls| ==> calls[i] <= c) && c <= t
    ensures InHour(calls, t) <= InHour(calls, c)
    decreases |calls|
  {
    if calls != [] {
      InHourShift(calls[..|calls| - 1], c, t);
    }
  }

  lemma OneMoreUnderBudget(maxPerHour: int, asks: seq<Time>, s: Time, t: Time)
    requires maxPerHour > 0 && Clocked(asks + [s])
    requires InHour(Accepted(maxPerHour, asks), t) <= maxPerHour
    ensures InHour(Accepted(maxPerHour, asks + [s]), t) <= maxPerHour
  {
    LastAsk(maxPerHour, asks, s);
    RefusedIffFull(maxPerHour, asks, s);
    InHourAppend(Accepted(maxPerHour, asks), s, t);
    if s <= t {
      ClockedBefore(asks, s);
      AcceptedPast(maxPerHour, asks, s);
      InHourShift(Accepted(maxPerHour, asks), s, t);
    }
  }

  /** Without a maximum every call is accepted. */
  lemma {:induction false} NoMaximum(maxPerHour: int, asks: seq<Time>)
    requires maxPerHour <= 0
    ensures Accepted(maxPerHour, asks) == asks
    decreases |asks|
  {
    if asks != [] {
      NoMaximum(maxPerHour, asks[..|asks| - 1]);
    }
  }

  /** No window of an hour, wherever it ends, holds more accepted calls than the maximum. */
  lemma {:induction false} NeverOverBudget(maxPerHour: int, asks: seq<Time>, t: Time)
    requires maxPerHour > 0 && Clocked(asks)
    ensures InHour(Accepted(maxPerHour, asks), t) <= maxPerHour
    decreases |asks|
  {
    if asks != [] {
      var n := |asks| - 1;
      NeverOverBudget(maxPerHour, asks[..n], t);
      assert asks == asks[..n] + [asks[n]];
      OneMoreUnderBudget(maxPerHour, asks[..n], asks[n], t);
    }
  }
}

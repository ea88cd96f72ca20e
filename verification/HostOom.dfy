/**
 OOM kills outside containers: the kernel's counter says how many processes were killed, container
 events say which of those were a container's; what no event claims for a while is the host's.
 */
module HostOoms {
  import opened Base

  datatype Config = Config(settle: Time, cooldown: Time)

  /** Kills seen at one poll. */
  datatype Kills = Kills(count: int, seen: Time)

  datatype Memory = Memory(
    credits: seq<Time>,       // when the container events came that no kill has been found for
    counter: Option<nat>,     // the last reading
    pending: seq<Kills>,      // kills not matched to an event yet
    confirmed: int,           // host kills not reported yet
    lastAlert: Option<Time>)

  const FRESH := Memory([], None, [], 0, None)

  function Total(pending: seq<Kills>): int {
    if pending == [] then 0 else pending[0].count + Total(pending[1..])
  }

  /** New kills, by the counter; below the last reading it was reset by a reboot. */
  function Grown(m: Memory, n: nat): nat {
    if m.counter.Some? && n > m.counter.value then n - m.counter.value else 0
  }

  function Counted(m: Memory, n: nat, now: Time): Memory {
    m.(counter := Some(n), pending := if Grown(m, n) > 0 then m.pending + [Kills(Grown(m, n), now)] else m.pending)
  }

  /** One credit pays for the oldest kill. */
  function PayOne(pending: seq<Kills>): seq<Kills>
    requires pending != []
  {
    if pending[0].count == 1 then pending[1..] else [pending[0].(count := pending[0].count - 1)] + pending[1..]
  }

  lemma PayOneTotal(pending: seq<Kills>)
    requires pending != []
    ensures Total(PayOne(pending)) == Total(pending) - 1
  {
    assert pending[0].count != 1 ==> PayOne(pending)[1..] == pending[1..];
  }

  /** Pairs the oldest event with the oldest kill, and so on until one side is empty. */
  function Match(credits: seq<Time>, pending: seq<Kills>): (rest: (seq<Time>, seq<Kills>))
    ensures |rest.0| <= |credits|
    decreases |credits|
  {
    if credits == [] || pending == [] then (credits, pending) else Match(credits[1..], PayOne(pending))
  }

  function Matched(m: Memory): Memory {
    m.(credits := Match(m.credits, m.pending).0, pending := Match(m.credits, m.pending).1)
  }

  function DropOld(credits: seq<Time>, settle: Time, now: Time): (rest: seq<Time>)
    ensures |rest| <= |credits|
  {
    if credits == [] || now - credits[0] < settle then credits else DropOld(credits[1..], settle, now)
  }

  function DropSettled(pending: seq<Kills>, settle: Time, now: Time): seq<Kills> {
    if pending == [] || now - pending[0].seen < settle then pending else DropSettled(pending[1..], settle, now)
  }

  /** The kills that have waited for an event long enough. */
  function CountSettled(pending: seq<Kills>, settle: Time, now: Time): int {
    if pending == [] || now - pending[0].seen < settle then 0 else pending[0].count + CountSettled(pending[1..], settle, now)
  }

  function Settled(cfg: Config, m: Memory, now: Time): Memory {
    m.(credits := DropOld(m.credits, cfg.settle, now),
       pending := DropSettled(m.pending, cfg.settle, now),
       confirmed := m.confirmed + CountSettled(m.pending, cfg.settle, now))
  }

  predicate MayAlert(cfg: Config, m: Memory, now: Time) {
    m.lastAlert.None? || now - m.lastAlert.value >= cfg.cooldown
  }

  /** A poll that read the counter: the new state, and how many kills it reports. */
  function Checked(cfg: Config, m: Memory, n: nat, now: Time): (Memory, int) {
    var s := Settled(cfg, Matched(Counted(m, n, now)), now);
    if s.confirmed == 0 || !MayAlert(cfg, s, now) then (s, 0)
    else (s.(confirmed := 0, lastAlert := Some(now)), s.confirmed)
  }

  class HostOOMDetector {
    const cfg: Config
    var credits: seq<Time>
    var counter: Option<nat>
    var pending: seq<Kills>
    var confirmed: int
    var lastAlert: Option<Time>

    function Mem(): Memory
      reads this
    {
      Memory(credits, counter, pending, confirmed, lastAlert)
    }

    constructor (cfg: Config)
      ensures this.cfg == cfg && Mem() == FRESH
    {
      this.cfg := cfg;
      credits, counter, pending, confirmed, lastAlert := [], None, [], 0, None;
    }

    /** A container's OOM event. */
    method ContainerOOM(now: Time)
      modifies this`credits
      ensures credits == old(credits) + [now]
    {
      credits := credits + [now];
    }

    /** A poll that read n off the counter. Returns how many kills outside containers to report, 0 for no alert. */
    method Check(n: nat, now: Time) returns (report: int)
      modifies this
      ensures (Mem(), report) == Checked(cfg, old(Mem()), n, now)
    {
      if counter.Some? && n > counter.value {
        pending := pending + [Kills(n - counter.value, now)];
      }
      counter := Some(n);
      assert Mem() == Counted(old(Mem()), n, now);
      MatchOldest();
      assert Mem() == Matched(Counted(old(Mem()), n, now));
      Settle(now);
      if confirmed == 0 || (lastAlert.Some? && now - lastAlert.value < cfg.cooldown) {
        return 0;
      }
      report := confirmed;
      confirmed := 0;
      lastAlert := Some(now);
    }

    /** Pairs events and kills off, as long as there are both. */
    method MatchOldest()
      modifies this`credits, this`pending
      ensures (credits, pending) == Match(old(credits), old(pending))
    {
      while |credits| > 0 && |pending| > 0
        invariant Match(credits, pending) == Match(old(credits), old(pending))
        decreases |credits|
      {
        credits := credits[1..];
        pending := if pending[0].count == 1 then pending[1..] else [Kills(pending[0].count - 1, pending[0].seen)] + pending[1..];
      }
    }

    /** Gives up on events that found no kill for the settle time, and blames the host for kills that found no event. */
    method Settle(now: Time)
      modifies this`credits, this`pending, this`confirmed
      ensures Mem() == Settled(cfg, old(Mem()), now)
    {
      while |credits| > 0 && now - credits[0] >= cfg.settle
        invariant pending == old(pending) && confirmed == old(confirmed)
        invariant DropOld(credits, cfg.settle, now) == DropOld(old(credits), cfg.settle, now)
        decreases |credits|
      {
        credits := credits[1..];
      }
      while |pending| > 0 && now - pending[0].seen >= cfg.settle
        invariant credits == DropOld(old(credits), cfg.settle, now)
        invariant DropSettled(pending, cfg.settle, now) == DropSettled(old(pending), cfg.settle, now)
        invariant confirmed + CountSettled(pending, cfg.settle, now) == old(confirmed) + CountSettled(old(pending), cfg.settle, now)
        decreases |pending|
      {
        confirmed := confirmed + pending[0].count;
        pending := pending[1..];
      }
    }

    /** What survives a restart: everything but the credits of events handled before. */
    method SaveState() returns (saved: Option<Memory>)
      ensures saved == if counter.Some? then Some(Mem().(credits := [])) else None
    {
      saved := if counter.Some? then Some(Memory([], counter, pending, confirmed, lastAlert)) else None;
    }

    method LoadState(saved: Option<Memory>)
      modifies this
      ensures saved.None? ==> Mem() == old(Mem())
      ensures saved.Some? ==> Mem() == saved.value.(credits := old(credits))
    {
      if saved.Some? {
        counter, pending := saved.value.counter, saved.value.pending;
        confirmed, lastAlert := saved.value.confirmed, saved.value.lastAlert;
      }
    }
  }

  lemma {:induction false} TotalAppend(pending: seq<Kills>, k: Kills)
    ensures Total(pending + [k]) == Total(pending) + k.count
    decreases |pending|
  {
    if pending == [] {
      assert [k][1..] == [];
    } else {
      assert (pending + [k])[1..] == pending[1..] + [k];
      TotalAppend(pending[1..], k);
    }
  }
}

/** Every kill and every event accounted for, over any run. */
module HostOomAccounts {
  import opened Base
  import opened HostOoms

  /** The detector's state, and what became of every kill and every event so far. */
  datatype World = World(
    m: Memory,
    now: Time,
    kills: nat,       // the counter has grown by
    matched: nat,     // of them claimed by a container event
    reported: int,
    events: nat,      // container events received
    expired: nat,     // events that never found a kill
    lost: nat,        // events forgotten in a restart
    alerts: seq<Time>)

  const START := World(FRESH, 0, 0, 0, 0, 0, 0, 0, [])

  datatype Step =
    | Event(now: Time)
    | Poll(n: nat, now: Time)
    | Failed(now: Time)  // the counter couldn't be read
    | Restart(now: Time)

  function Apply(cfg: Config, w: World, s: Step): World
  {
    match s
    case Event(now) => w.(m := w.m.(credits := w.m.credits + [now]), now := now, events := w.events + 1)
    case Poll(n, now) =>
      var counted := Counted(w.m, n, now);
      var paid := Matched(counted);
      var (m', report) := Checked(cfg, w.m, n, now);
      w.(m := m', now := now, kills := w.kills + Grown(w.m, n),
         matched := w.matched + |counted.credits| - |paid.credits|, reported := w.reported + report,
         expired := w.expired + |paid.credits| - |Settled(cfg, paid, now).credits|,
         alerts := if report != 0 then w.alerts + [now] else w.alerts)
    case Failed(now) => w.(now := now)
    case Restart(now) => w.(m := w.m.(credits := []), now := now, lost := w.lost + |w.m.credits|)
  }

  ghost predicate Legal(cfg: Config, steps: seq<Step>)
    decreases |steps|, 0
  {
    steps == [] || (Legal(cfg, steps[..|steps| - 1]) && Run(cfg, steps[..|steps| - 1]).now <= steps[|steps| - 1].now)
  }

  ghost function Run(cfg: Config, steps: seq<Step>): (w: World)
    requires Legal(cfg, steps)
    decreases |steps|, 1
  {
    if steps == [] then START
    else
      var w := Run(cfg, steps[..|steps| - 1]);
      Apply(cfg, w, steps[|steps| - 1])
  }

  /** Nothing gets lost and nothing is made up, on either side. */
  ghost predicate Balanced(w: World) {
    && w.kills == w.matched + Total(w.m.pending) + w.m.confirmed + w.reported
    && w.events == w.matched + |w.m.credits| + w.expired + w.lost
  }

  ghost predicate InOrder(w: World) {
    Rising(w.m.credits, w.now) && SeenInOrder(w.m.pending, w.now)
  }

  ghost predicate Rising(credits: seq<Time>, now: Time) {
    forall i, j :: 0 <= i <= j < |credits| ==> credits[i] <= credits[j] <= now
  }

  ghost predicate SeenInOrder(pending: seq<Kills>, now: Time) {
    forall i, j :: 0 <= i <= j < |pending| ==> pending[i].seen <= pending[j].seen <= now
  }

  ghost predicate Apart(cfg: Config, w: World) {
    && w.m.lastAlert == (if w.alerts == [] then None else Some(w.alerts[|w.alerts| - 1]))
    && (w.alerts != [] ==> w.alerts[|w.alerts| - 1] <= w.now)
    && forall i :: 0 < i < |w.alerts| ==> w.alerts[i] - w.alerts[i - 1] >= cfg.cooldown
  }

  /** After a poll one of the two queues is empty, and what is left in the other is younger than the settle time. */
  ghost predicate Polled(cfg: Config, w: World) {
    && (w.m.credits == [] || w.m.pending == [])
    && YoungCredits(w.m.credits, cfg.settle, w.now)
    && YoungKills(w.m.pending, cfg.settle, w.now)
  }

  ghost predicate YoungCredits(credits: seq<Time>, settle: Time, now: Time) {
    forall i :: 0 <= i < |credits| ==> now - credits[i] < settle
  }

  ghost predicate YoungKills(pending: seq<Kills>, settle: Time, now: Time) {
    forall i :: 0 <= i < |pending| ==> now - pending[i].seen < settle
  }

  /** What Match takes off one side it takes off the other, and it stops only when a side is empty. */
  lemma {:induction false} MatchBalances(credits: seq<Time>, pending: seq<Kills>)
    ensures var (c, p) := Match(credits, pending);
      (c == [] || p == []) && |credits| - |c| == Total(pending) - Total(p)
    decreases |credits|
  {
    if credits != [] && pending != [] {
      PayOneTotal(pending);
      MatchBalances(credits[1..], PayOne(pending));
    }
  }

  lemma {:induction false} SettledBalances(pending: seq<Kills>, settle: Time, now: Time)
    ensures Total(pending) == CountSettled(pending, settle, now) + Total(DropSettled(pending, settle, now))
  {
    if pending != [] {
      SettledBalances(pending[1..], settle, now);
    }
  }

  /** What a poll does to the numbers, step by step. */
  lemma PollBalances(cfg: Config, w: World, n: nat, now: Time)
    requires Balanced(w)
    ensures Balanced(Apply(cfg, w, Poll(n, now)))
  {
    var counted := Counted(w.m, n, now);
    assert Total(counted.pending) == Total(w.m.pending) + Grown(w.m, n) by {
      TotalAppend(w.m.pending, Kills(Grown(w.m, n), now));
    }
    MatchBalances(counted.credits, counted.pending);
    SettledBalances(Matched(counted).pending, cfg.settle, now);
  }

  lemma RestRising(credits: seq<Time>, now: Time)
    requires Rising(credits, now) && credits != []
    ensures Rising(credits[1..], now)
  {
  }

  lemma RestInOrder(pending: seq<Kills>, now: Time)
    requires SeenInOrder(pending, now) && pending != []
    ensures SeenInOrder(pending[1..], now)
  {
  }

  lemma PaidInOrder(pending: seq<Kills>, now: Time)
    requires SeenInOrder(pending, now) && pending != []
    ensures SeenInOrder(PayOne(pending), now)
  {
    var paid := PayOne(pending);
    forall i, j | 0 <= i <= j < |paid| ensures paid[i].seen <= paid[j].seen <= now {
      var d := |pending| - |paid|;
      assert paid[i].seen == pending[i + d].seen && paid[j].seen == pending[j + d].seen;
    }
  }

  lemma {:induction false} MatchInOrder(credits: seq<Time>, pending: seq<Kills>, now: Time)
    requires SeenInOrder(pending, now) && Rising(credits, now)
    ensures Rising(Match(credits, pending).0, now) && SeenInOrder(Match(credits, pending).1, now)
    decreases |credits|
  {
    if credits != [] && pending != [] {
      RestRising(credits, now);
      PaidInOrder(pending, now);
      PayOneTotal(pending);
      MatchInOrder(credits[1..], PayOne(pending), now);
    }
  }

  /** What is left behind the first young entry is young. */
  lemma {:induction false} OldCreditsGo(credits: seq<Time>, settle: Time, now: Time)
    requires Rising(credits, now)
    ensures Rising(DropOld(credits, settle, now), now) && YoungCredits(DropOld(credits, settle, now), settle, now)
  {
    if credits != [] && now - credits[0] >= settle {
      RestRising(credits, now);
      OldCreditsGo(credits[1..], settle, now);
    }
  }

  lemma {:induction false} SettledKillsGo(pending: seq<Kills>, settle: Time, now: Time)
    requires SeenInOrder(pending, now)
    ensures SeenInOrder(DropSettled(pending, settle, now), now) && YoungKills(DropSettled(pending, settle, now), settle, now)
  {
    if pending != [] && now - pending[0].seen >= settle {
      RestInOrder(pending, now);
      SettledKillsGo(pending[1..], settle, now);
    }
  }

  lemma EmptyStaysEmpty(m: Memory, cfg: Config, now: Time)
    requires m.credits == [] || m.pending == []
    ensures Settled(cfg, m, now).credits == [] || Settled(cfg, m, now).pending == []
  {
  }

  lemma PollInOrder(cfg: Config, w: World, n: nat, now: Time)
    requires InOrder(w) && w.now <= now
    ensures InOrder(Apply(cfg, w, Poll(n, now))) && Polled(cfg, Apply(cfg, w, Poll(n, now)))
  {
    var counted := Counted(w.m, n, now);
    var paid := Matched(counted);
    assert SeenInOrder(counted.pending, now) && Rising(counted.credits, now);
    MatchInOrder(counted.credits, counted.pending, now);
    MatchBalances(counted.credits, counted.pending);
    OldCreditsGo(paid.credits, cfg.settle, now);
    SettledKillsGo(paid.pending, cfg.settle, now);
    EmptyStaysEmpty(paid, cfg, now);
  }

  lemma StepKeeps(cfg: Config, w: World, s: Step)
    requires Balanced(w) && InOrder(w) && w.now <= s.now
    ensures Balanced(Apply(cfg, w, s)) && InOrder(Apply(cfg, w, s))
    ensures s.Poll? ==> Polled(cfg, Apply(cfg, w, s))
  {
    match s
    case Event(_) =>
    case Poll(n, now) =>
      PollBalances(cfg, w, n, now);
      PollInOrder(cfg, w, n, now);
    case Failed(_) =>
    case Restart(_) =>
  }

  lemma StepKeepsApart(cfg: Config, w: World, s: Step)
    requires Apart(cfg, w) && w.now <= s.now
    ensures Apart(cfg, Apply(cfg, w, s))
  {
  }

  /**
   * Over every run, whatever the order of polls, events, failures and restarts: the accounts balance, the queues
   * are oldest first, alerts are a cooldown apart, and a poll leaves one queue empty and nothing overdue in the other.
   */
  lemma {:induction false} EveryKillIsAccountedFor(cfg: Config, steps: seq<Step>)
    requires Legal(cfg, steps)
    ensures Balanced(Run(cfg, steps)) && InOrder(Run(cfg, steps)) && Apart(cfg, Run(cfg, steps))
    ensures steps != [] && steps[|steps| - 1].Poll? ==> Polled(cfg, Run(cfg, steps))
    decreases |steps|
  {
    if steps != [] {
      var n := |steps| - 1;
      var w := Run(cfg, steps[..n]);
      EveryKillIsAccountedFor(cfg, steps[..n]);
      StepKeeps(cfg, w, steps[n]);
      StepKeepsApart(cfg, w, steps[n]);
    }
  }

  // ---- What the detector promises ----

  /** Outside the cooldown a poll reports everything that is confirmed. */
  lemma PollReportsAll(cfg: Config, w: World, n: nat, now: Time)
    requires Apart(cfg, w) && (w.alerts == [] || now - w.alerts[|w.alerts| - 1] >= cfg.cooldown)
    ensures Apply(cfg, w, Poll(n, now)).m.confirmed == 0
  {
    hide Match, DropOld, DropSettled, CountSettled, Grown;
  }

  /** After a poll, everything as old as the settle time has been reported, unless the cooldown holds it back. */
  lemma NoSettledKillIsLost(cfg: Config, steps: seq<Step>, n: nat, now: Time)
    requires Legal(cfg, steps + [Poll(n, now)])
    ensures var w := Run(cfg, steps + [Poll(n, now)]);
      && YoungKills(w.m.pending, cfg.settle, now)
      && Legal(cfg, steps)
      && var alerts := Run(cfg, steps).alerts;
         (alerts == [] || now - alerts[|alerts| - 1] >= cfg.cooldown ==>
            w.m.confirmed == 0 && w.kills == w.matched + Total(w.m.pending) + w.reported)
  {
    hide Run, Legal, Apply, Total, YoungKills, Apart, InOrder;
    var more := steps + [Poll(n, now)];
    OneMore(cfg, steps, Poll(n, now));
    EveryKillIsAccountedFor(cfg, steps);
    EveryKillIsAccountedFor(cfg, more);
    var alerts := Run(cfg, steps).alerts;
    if alerts == [] || now - alerts[|alerts| - 1] >= cfg.cooldown {
      PollReportsAll(cfg, Run(cfg, steps), n, now);
    }
  }

  lemma OneMore(cfg: Config, steps: seq<Step>, s: Step)
    requires Legal(cfg, steps + [s])
    ensures Legal(cfg, steps) && Run(cfg, steps + [s]) == Apply(cfg, Run(cfg, steps), s)
    ensures Apply(cfg, Run(cfg, steps), s).now == s.now
  {
    hide Checked, Counted, Matched, Settled, Grown;
    assert (steps + [s])[..|steps|] == steps;
  }

  // ---- The order of arrival ----

  ghost predicate Positive(pending: seq<Kills>) {
    forall i :: 0 <= i < |pending| ==> pending[i].count > 0
  }

  lemma {:induction false} MatchPositive(credits: seq<Time>, pending: seq<Kills>)
    requires Positive(pending)
    ensures Positive(Match(credits, pending).1)
    decreases |credits|
  {
    if credits != [] && pending != [] {
      MatchPositive(credits[1..], PayOne(pending));
    }
  }

  lemma {:induction false} SettledPositive(pending: seq<Kills>, settle: Time, now: Time)
    requires Positive(pending)
    ensures Positive(DropSettled(pending, settle, now))
  {
    if pending != [] && now - pending[0].seen >= settle {
      SettledPositive(pending[1..], settle, now);
    }
  }

  lemma {:induction false} PositiveTotal(pending: seq<Kills>)
    requires Positive(pending)
    ensures Total(pending) >= 0
  {
    if pending != [] {
      PositiveTotal(pending[1..]);
    }
  }

  /** A detector that started empty never has an entry without kills. */
  lemma {:induction false} RunPositive(cfg: Config, steps: seq<Step>)
    requires Legal(cfg, steps)
    ensures Positive(Run(cfg, steps).m.pending)
    decreases |steps|
  {
    if steps != [] {
      var n := |steps| - 1;
      var w := Run(cfg, steps[..n]);
      RunPositive(cfg, steps[..n]);
      if steps[n].Poll? {
        var counted := Counted(w.m, steps[n].n, steps[n].now);
        MatchPositive(counted.credits, counted.pending);
        SettledPositive(Matched(counted).pending, cfg.settle, steps[n].now);
      }
    }
  }

  function Min(a: int, b: int): int {
    if a < b then a else b
  }

  /**
   * It doesn't matter which side shows up first: after a poll, as many kills have been matched as there are kills that
   * weren't given up on and events that weren't, whichever is less. If nothing has reached settle age and no restart
   * has lost an event, that is all kills and all events, over runs of any length.
   */
  lemma OrderOfArrivalDoesntMatter(cfg: Config, steps: seq<Step>)
    requires Legal(cfg, steps) && steps != [] && steps[|steps| - 1].Poll?
    ensures var w := Run(cfg, steps);
      && w.matched == Min(w.kills - w.m.confirmed - w.reported, w.events - w.expired - w.lost)
      && (w.m.confirmed == w.reported == 0 && w.expired == w.lost == 0 ==> w.matched == Min(w.kills, w.events))
  {
    hide Run;
    EveryKillIsAccountedFor(cfg, steps);
    RunPositive(cfg, steps);
    PositiveTotal(Run(cfg, steps).m.pending);
    assert Total([]) == 0;
  }

  // ---- Who may be given up, by the steps alone ----

  function LastReading(steps: seq<Step>): Option<nat> {
    if steps == [] then None
    else if steps[|steps| - 1].Poll? then Some(steps[|steps| - 1].n)
    else LastReading(steps[..|steps| - 1])
  }

  /** By how much the last step found the counter grown. */
  function Growth(steps: seq<Step>): nat
    requires steps != []
  {
    var s, before := steps[|steps| - 1], LastReading(steps[..|steps| - 1]);
    if s.Poll? && before.Some? && s.n > before.value then s.n - before.value else 0
  }

  predicate IsAfter(t: Time, cutoff: Option<Time>) {
    cutoff.None? || t > cutoff.value
  }

  /** The kills that polls after the cutoff found, or all. */
  function KillsAfter(steps: seq<Step>, cutoff: Option<Time>): nat {
    if steps == [] then 0
    else
      KillsAfter(steps[..|steps| - 1], cutoff) + if IsAfter(steps[|steps| - 1].now, cutoff) then Growth(steps) else 0
  }

  /** The container events that came after the cutoff, or all. */
  function EventsAfter(steps: seq<Step>, cutoff: Option<Time>): nat {
    if steps == [] then 0
    else
      var s := steps[|steps| - 1];
      EventsAfter(steps[..|steps| - 1], cutoff) + if s.Event? && IsAfter(s.now, cutoff) then 1 else 0
  }

  function LastPoll(steps: seq<Step>): Option<Time> {
    if steps == [] then None
    else if steps[|steps| - 1].Poll? then Some(steps[|steps| - 1].now)
    else LastPoll(steps[..|steps| - 1])
  }

  /** The events that came before the last restart. */
  function EventsBeforeRestart(steps: seq<Step>): nat {
    if steps == [] then 0
    else if steps[|steps| - 1].Restart? then EventsAfter(steps, None)
    else EventsBeforeRestart(steps[..|steps| - 1])
  }

  /** Kills given up are at least the settle time old by the last poll, and so are expired events. */
  ghost predicate OnlyTheOld(cfg: Config, w: World, steps: seq<Step>) {
    match LastPoll(steps)
    case None => w.m.confirmed == w.reported == 0 && w.expired == 0
    case Some(t) =>
      && w.m.confirmed + w.reported <= KillsAfter(steps, None) - KillsAfter(steps, Some(t - cfg.settle))
      && w.expired <= EventsAfter(steps, None) - EventsAfter(steps, Some(t - cfg.settle))
  }

  function KillsLater(pending: seq<Kills>, cutoff: Time): int {
    if pending == [] then 0
    else (if pending[0].seen > cutoff then pending[0].count else 0) + KillsLater(pending[1..], cutoff)
  }

  function CountLater(credits: seq<Time>, cutoff: Time): nat {
    if credits == [] then 0 else (if credits[0] > cutoff then 1 else 0) + CountLater(credits[1..], cutoff)
  }

  /** The oldest go first: of what came after the oldest entry, nothing is missing. */
  ghost predicate EventsInLine(credits: seq<Time>, steps: seq<Step>) {
    credits != [] ==> forall c: Time :: c >= credits[0] ==> CountLater(credits, c) == EventsAfter(steps, Some(c))
  }

  ghost predicate KillsInLine(pending: seq<Kills>, steps: seq<Step>) {
    pending != [] ==> forall c: Time :: c >= pending[0].seen ==> KillsLater(pending, c) == KillsAfter(steps, Some(c))
  }

  lemma {:induction false} CountLaterAppend(credits: seq<Time>, t: Time, cutoff: Time)
    ensures CountLater(credits + [t], cutoff) == CountLater(credits, cutoff) + if t > cutoff then 1 else 0
    decreases |credits|
  {
    if credits == [] {
      assert [t][1..] == [];
    } else {
      assert (credits + [t])[1..] == credits[1..] + [t];
      CountLaterAppend(credits[1..], t, cutoff);
    }
  }

  lemma {:induction false} KillsLaterAppend(pending: seq<Kills>, k: Kills, cutoff: Time)
    ensures KillsLater(pending + [k], cutoff) == KillsLater(pending, cutoff) + if k.seen > cutoff then k.count else 0
    decreases |pending|
  {
    if pending == [] {
      assert [k][1..] == [];
    } else {
      assert (pending + [k])[1..] == pending[1..] + [k];
      KillsLaterAppend(pending[1..], k, cutoff);
    }
  }

  lemma {:induction false} AllLater(credits: seq<Time>, pending: seq<Kills>, cutoff: Time)
    ensures (forall i :: 0 <= i < |credits| ==> credits[i] > cutoff) ==> CountLater(credits, cutoff) == |credits|
    ensures (forall i :: 0 <= i < |pending| ==> pending[i].seen > cutoff) ==> KillsLater(pending, cutoff) == Total(pending)
    decreases |credits| + |pending|
  {
    if credits != [] || pending != [] {
      var a, b := if credits == [] then [] else credits[1..], if pending == [] then [] else pending[1..];
      AllLater(a, b, cutoff);
    }
  }

  /** Nothing came after the end, and what came after something earlier is no less. */
  lemma {:induction false} AfterTheEnd(cfg: Config, steps: seq<Step>, a: Time, b: Option<Time>)
    requires Legal(cfg, steps)
    ensures a >= Run(cfg, steps).now ==> EventsAfter(steps, Some(a)) == 0 && KillsAfter(steps, Some(a)) == 0
    ensures b.None? || b.value <= a ==>
      EventsAfter(steps, Some(a)) <= EventsAfter(steps, b) && KillsAfter(steps, Some(a)) <= KillsAfter(steps, b)
    decreases |steps|
  {
    if steps != [] {
      AfterTheEnd(cfg, steps[..|steps| - 1], a, b);
    }
  }

  lemma {:induction false} MatchInLine(credits: seq<Time>, pending: seq<Kills>, steps: seq<Step>, now: Time)
    requires EventsInLine(credits, steps) && KillsInLine(pending, steps) && Rising(credits, now) && SeenInOrder(pending, now)
    ensures EventsInLine(Match(credits, pending).0, steps) && KillsInLine(Match(credits, pending).1, steps)
    decreases |credits|
  {
    if credits != [] && pending != [] {
      hide EventsAfter, KillsAfter;
      RestRising(credits, now);
      PaidInOrder(pending, now);
      PaidInLine(pending, steps, now);
      MatchInLine(credits[1..], PayOne(pending), steps, now);
    }
  }

  lemma PaidInLine(pending: seq<Kills>, steps: seq<Step>, now: Time)
    requires pending != [] && KillsInLine(pending, steps) && SeenInOrder(pending, now)
    ensures KillsInLine(PayOne(pending), steps)
  {
    hide KillsAfter;
    var paid := PayOne(pending);
    forall c: Time | paid != [] && c >= paid[0].seen ensures KillsLater(paid, c) == KillsAfter(steps, Some(c)) {
      assert pending[0].seen <= paid[0].seen;
      assert KillsLater(pending, c) == KillsLater(pending[1..], c);
      if pending[0].count != 1 {
        assert paid[1..] == pending[1..];
      }
    }
  }

  /** The steps grow by one, and with them the queues. */
  lemma EventInLine(cfg: Config, steps: seq<Step>, now: Time)
    requires Legal(cfg, steps + [Event(now)]) && Legal(cfg, steps) && Run(cfg, steps).now <= now
    requires EventsInLine(Run(cfg, steps).m.credits, steps) && KillsInLine(Run(cfg, steps).m.pending, steps)
    ensures EventsInLine(Run(cfg, steps).m.credits + [now], steps + [Event(now)])
    ensures KillsInLine(Run(cfg, steps).m.pending, steps + [Event(now)])
  {
    hide Run, Legal;
    var credits, more := Run(cfg, steps).m.credits, steps + [Event(now)];
    assert more[..|steps|] == steps;
    assert forall c :: KillsAfter(more, c) == KillsAfter(steps, c);
    forall c: Time | c >= (credits + [now])[0]
      ensures CountLater(credits + [now], c) == EventsAfter(more, Some(c))
    {
      CountLaterAppend(credits, now, c);
      if credits == [] {
        AfterTheEnd(cfg, steps, c, None);
      }
    }
  }

  lemma CountedInLine(cfg: Config, steps: seq<Step>, n: nat, now: Time)
    requires Legal(cfg, steps) && Run(cfg, steps).now <= now && Run(cfg, steps).m.counter == LastReading(steps)
    requires EventsInLine(Run(cfg, steps).m.credits, steps) && KillsInLine(Run(cfg, steps).m.pending, steps)
    ensures EventsInLine(Counted(Run(cfg, steps).m, n, now).credits, steps + [Poll(n, now)])
    ensures KillsInLine(Counted(Run(cfg, steps).m, n, now).pending, steps + [Poll(n, now)])
  {
    hide Run, Legal, LastReading;
    var m, more := Run(cfg, steps).m, steps + [Poll(n, now)];
    assert more[..|steps|] == steps && more[|steps|] == Poll(n, now);
    assert Growth(more) == Grown(m, n);
    assert forall c :: EventsAfter(more, c) == EventsAfter(steps, c);
    var pending := Counted(m, n, now).pending;
    forall c: Time | pending != [] && c >= pending[0].seen ensures KillsLater(pending, c) == KillsAfter(more, Some(c)) {
      KillsLaterAppend(m.pending, Kills(Grown(m, n), now), c);
      if m.pending == [] {
        AfterTheEnd(cfg, steps, c, None);
      }
    }
  }

  lemma {:induction false} DropOldInLine(credits: seq<Time>, steps: seq<Step>, settle: Time, now: Time)
    requires EventsInLine(credits, steps) && Rising(credits, now)
    ensures EventsInLine(DropOld(credits, settle, now), steps)
    ensures CountLater(DropOld(credits, settle, now), now - settle) == CountLater(credits, now - settle)
  {
    hide EventsAfter;
    if credits != [] && now - credits[0] >= settle {
      RestRising(credits, now);
      DropOldInLine(credits[1..], steps, settle, now);
    }
  }

  lemma {:induction false} DropSettledInLine(pending: seq<Kills>, steps: seq<Step>, settle: Time, now: Time)
    requires KillsInLine(pending, steps) && SeenInOrder(pending, now)
    ensures KillsInLine(DropSettled(pending, settle, now), steps)
    ensures KillsLater(DropSettled(pending, settle, now), now - settle) == KillsLater(pending, now - settle)
  {
    hide KillsAfter;
    if pending != [] && now - pending[0].seen >= settle {
      RestInOrder(pending, now);
      DropSettledInLine(pending[1..], steps, settle, now);
    }
  }

  /** The state, the accounts and the steps tell the same story. */
  ghost predicate ByTheSteps(cfg: Config, w: World, steps: seq<Step>) {
    && w.m.counter == LastReading(steps)
    && w.kills == KillsAfter(steps, None) && w.events == EventsAfter(steps, None)
    && w.lost <= EventsBeforeRestart(steps)
    && EventsInLine(w.m.credits, steps) && KillsInLine(w.m.pending, steps)
    && OnlyTheOld(cfg, w, steps)
  }

  /** The steps that aren't polls give nothing up. */
  lemma OtherStep(cfg: Config, steps: seq<Step>, s: Step)
    requires Legal(cfg, steps) && Run(cfg, steps).now <= s.now && !s.Poll? && Legal(cfg, steps + [s])
    requires Balanced(Run(cfg, steps)) && ByTheSteps(cfg, Run(cfg, steps), steps)
    ensures ByTheSteps(cfg, Apply(cfg, Run(cfg, steps), s), steps + [s])
  {
    hide Run, Legal;
    var w, more := Run(cfg, steps), steps + [s];
    assert more[..|steps|] == steps && more[|steps|] == s;
    if s.Event? {
      EventInLine(cfg, steps, s.now);
    }
  }

  lemma NoEvent(steps: seq<Step>, s: Step, cutoff: Option<Time>)
    requires !s.Event?
    ensures EventsAfter(steps + [s], cutoff) == EventsAfter(steps, cutoff)
  {
    assert (steps + [s])[..|steps|] == steps;
  }

  lemma CountedInOrder(w: World, n: nat, now: Time)
    requires InOrder(w) && w.now <= now
    ensures Rising(Counted(w.m, n, now).credits, now) && SeenInOrder(Counted(w.m, n, now).pending, now)
  {
  }

  /** Something is dropped only if the first entry is old, and then the lines say what came after the cutoff. */
  lemma FirstIsOld(credits: seq<Time>, pending: seq<Kills>, steps: seq<Step>, settle: Time, now: Time)
    requires EventsInLine(credits, steps) && KillsInLine(pending, steps)
    ensures DropOld(credits, settle, now) != credits ==> CountLater(credits, now - settle) == EventsAfter(steps, Some(now - settle))
    ensures CountSettled(pending, settle, now) != 0 ==> KillsLater(pending, now - settle) == KillsAfter(steps, Some(now - settle))
  {
  }

  /** What one poll gives up is as old as the settle time. */
  lemma PollGivesUp(cfg: Config, steps: seq<Step>, n: nat, now: Time)
    requires Legal(cfg, steps) && Run(cfg, steps).now <= now
    requires Balanced(Run(cfg, steps)) && InOrder(Run(cfg, steps)) && ByTheSteps(cfg, Run(cfg, steps), steps)
    ensures var w, w', more := Run(cfg, steps), Apply(cfg, Run(cfg, steps), Poll(n, now)), steps + [Poll(n, now)];
      && EventsInLine(w'.m.credits, more) && KillsInLine(w'.m.pending, more)
      && w'.kills == KillsAfter(more, None) && w'.events == EventsAfter(more, None)
      && (w'.expired > w.expired ==> |w'.m.credits| == EventsAfter(more, Some(now - cfg.settle)))
      && (w'.m.confirmed + w'.reported > w.m.confirmed + w.reported ==>
            Total(w'.m.pending) == KillsAfter(more, Some(now - cfg.settle)))
  {
    hide Run, Legal, LastReading, OnlyTheOld, Match, EventsInLine, KillsInLine, Rising, SeenInOrder, EventsAfter;
    var w, more := Run(cfg, steps), steps + [Poll(n, now)];
    var counted := Counted(w.m, n, now);
    var paid := Matched(counted);
    var cutoff := now - cfg.settle;
    assert more[..|steps|] == steps && more[|steps|] == Poll(n, now);
    CountedInLine(cfg, steps, n, now);
    CountedInOrder(w, n, now);
    MatchInLine(counted.credits, counted.pending, more, now);
    MatchInOrder(counted.credits, counted.pending, now);
    DropOldInLine(paid.credits, more, cfg.settle, now);
    DropSettledInLine(paid.pending, more, cfg.settle, now);
    OldCreditsGo(paid.credits, cfg.settle, now);
    SettledKillsGo(paid.pending, cfg.settle, now);
    var left := Settled(cfg, paid, now);
    AllLater(left.credits, left.pending, cutoff);
    NoEvent(steps, Poll(n, now), None);
    FirstIsOld(paid.credits, paid.pending, more, cfg.settle, now);
  }

  lemma {:induction false} LastPollIsPast(cfg: Config, steps: seq<Step>)
    requires Legal(cfg, steps) && LastPoll(steps).Some?
    ensures LastPoll(steps).value <= Run(cfg, steps).now
    decreases |steps|
  {
    if !steps[|steps| - 1].Poll? {
      LastPollIsPast(cfg, steps[..|steps| - 1]);
    }
  }

  /** What is old by one poll is old by the next. */
  lemma OldStaysOld(cfg: Config, steps: seq<Step>, s: Step, earlier: Time, cutoff: Time)
    requires Legal(cfg, steps + [s]) && Legal(cfg, steps) && earlier <= cutoff
    ensures KillsAfter(steps, None) - KillsAfter(steps, Some(earlier)) <= KillsAfter(steps + [s], None) - KillsAfter(steps + [s], Some(cutoff))
    ensures EventsAfter(steps, None) - EventsAfter(steps, Some(earlier)) <= EventsAfter(steps + [s], None) - EventsAfter(steps + [s], Some(cutoff))
  {
    assert (steps + [s])[..|steps|] == steps;
    AfterTheEnd(cfg, steps, cutoff, Some(earlier));
  }

  lemma PollStep(cfg: Config, steps: seq<Step>, n: nat, now: Time)
    requires Legal(cfg, steps) && Run(cfg, steps).now <= now && Legal(cfg, steps + [Poll(n, now)])
    requires Balanced(Run(cfg, steps)) && InOrder(Run(cfg, steps)) && ByTheSteps(cfg, Run(cfg, steps), steps)
    requires Balanced(Apply(cfg, Run(cfg, steps), Poll(n, now)))
    ensures ByTheSteps(cfg, Apply(cfg, Run(cfg, steps), Poll(n, now)), steps + [Poll(n, now)])
  {
    hide Run, Legal, Checked, Settled, Matched, KillsAfter, EventsAfter, EventsInLine, KillsInLine, InOrder;
    var w, w', more := Run(cfg, steps), Apply(cfg, Run(cfg, steps), Poll(n, now)), steps + [Poll(n, now)];
    assert more[..|steps|] == steps && more[|steps|] == Poll(n, now);
    PollGivesUp(cfg, steps, n, now);
    PollReads(cfg, w, n, now);
    var cutoff := now - cfg.settle;
    AfterTheEnd(cfg, more, cutoff, None);
    if LastPoll(steps).Some? {
      LastPollIsPast(cfg, steps);
      OldStaysOld(cfg, steps, Poll(n, now), LastPoll(steps).value - cfg.settle, cutoff);
    }
  }

  lemma PollReads(cfg: Config, w: World, n: nat, now: Time)
    ensures var w' := Apply(cfg, w, Poll(n, now));
      w'.m.counter == Some(n) && w'.lost == w.lost
  {
    hide Match, DropOld, DropSettled;
  }

  /**
   * Over every run, judging by the steps alone: the accounts count what the counter's readings and the events say; a kill
   * is blamed on the host only at a poll the settle time or more after the one that found it; an event is given up
   * without a kill only at a poll that much after it came, or in a restart.
   */
  lemma {:induction false} GivenUpOnlyWhenOld(cfg: Config, steps: seq<Step>)
    requires Legal(cfg, steps)
    ensures ByTheSteps(cfg, Run(cfg, steps), steps)
    decreases |steps|
  {
    if steps != [] {
      hide Apply, ByTheSteps, Balanced, InOrder, Apart, Polled;
      var n := |steps| - 1;
      assert steps[..n] + [steps[n]] == steps;
      GivenUpOnlyWhenOld(cfg, steps[..n]);
      EveryKillIsAccountedFor(cfg, steps[..n]);
      EveryKillIsAccountedFor(cfg, steps);
      if steps[n].Poll? {
        PollStep(cfg, steps[..n], steps[n].n, steps[n].now);
      } else {
        OtherStep(cfg, steps[..n], steps[n]);
      }
    }
  }

  /** No poll comes the settle time or more after an event, or after a poll that found kills; and nodux isn't restarted. */
  ghost predicate Brief(cfg: Config, steps: seq<Step>) {
    && (forall i :: 0 <= i < |steps| ==> !steps[i].Restart?)
    && (forall i, j :: 0 <= i <= j < |steps| && steps[j].Poll? && (steps[i].Event? || Growth(steps[..i + 1]) > 0) ==>
          steps[j].now - steps[i].now < cfg.settle)
  }

  lemma {:induction false} NoneIsOld(cfg: Config, steps: seq<Step>, n: nat)
    requires n <= |steps| && steps != [] && steps[|steps| - 1].Poll? && Brief(cfg, steps)
    ensures var cutoff := steps[|steps| - 1].now - cfg.settle;
      KillsAfter(steps[..n], Some(cutoff)) == KillsAfter(steps[..n], None) && EventsAfter(steps[..n], Some(cutoff)) == EventsAfter(steps[..n], None)
    ensures EventsBeforeRestart(steps[..n]) == 0
  {
    if n > 0 {
      hide Growth;
      NoneIsOld(cfg, steps, n - 1);
      assert steps[..n][..n - 1] == steps[..n - 1] && steps[..n][n - 1] == steps[n - 1];
      assert steps[n - 1].Event? || Growth(steps[..n]) > 0 ==> steps[|steps| - 1].now - steps[n - 1].now < cfg.settle;
    }
  }

  /** Over such a run it doesn't matter which side shows up first: after a poll, every kill there is an event for has it. */
  lemma BriefRunsMatchEverything(cfg: Config, steps: seq<Step>)
    requires Legal(cfg, steps) && steps != [] && steps[|steps| - 1].Poll? && Brief(cfg, steps)
    ensures var w := Run(cfg, steps);
      && w.matched == Min(KillsAfter(steps, None), EventsAfter(steps, None))
      && w.m.confirmed == w.reported == 0 && w.expired == 0 && w.lost == 0
  {
    hide Run, Brief, KillsAfter, EventsAfter;
    GivenUpOnlyWhenOld(cfg, steps);
    EveryKillIsAccountedFor(cfg, steps);
    OrderOfArrivalDoesntMatter(cfg, steps);
    NoneIsOld(cfg, steps, |steps|);
    assert steps[..|steps|] == steps;
    NothingNegative(cfg, steps);
  }

  lemma {:induction false} NothingNegative(cfg: Config, steps: seq<Step>)
    requires Legal(cfg, steps)
    ensures Run(cfg, steps).m.confirmed >= 0 && Run(cfg, steps).reported >= 0
    decreases |steps|
  {
    if steps != [] {
      hide Match, DropOld, DropSettled;
      var n := |steps| - 1;
      NothingNegative(cfg, steps[..n]);
      RunPositive(cfg, steps[..n]);
      if steps[n].Poll? {
        var counted := Counted(Run(cfg, steps[..n]).m, steps[n].n, steps[n].now);
        MatchPositive(counted.credits, counted.pending);
        SettledCount(Matched(counted).pending, cfg.settle, steps[n].now);
      }
    }
  }

  lemma {:induction false} SettledCount(pending: seq<Kills>, settle: Time, now: Time)
    requires Positive(pending)
    ensures CountSettled(pending, settle, now) >= 0
  {
    if pending != [] && now - pending[0].seen >= settle {
      SettledCount(pending[1..], settle, now);
    }
  }
}

/**
 The dispatcher: alerts off the queue go through the grouper, or past it when silenced, into a channel
 of batches, which the delivery goroutine hands to the actions. Runs interleave the two goroutines.
 */
module Dispatching {
  import opened Base
  import opened Issues
  import opened Incidents
  import opened IncidentRuns
  import opened IncidentInvariant
  import opened IncidentTheorems
  import opened Grouping
  import opened Bags

  const ANALYZE_BATCH := 8

  // ---- What happens to a batch ----

  /** A silenced alert skips incidents. */
  function Alone(issue: Issue): Batch {
    Batch(0, false, [issue], [], "")
  }

  function WithAnalysis(alerts: seq<Issue>, summary: string): (r: seq<Issue>)
    ensures |r| == |alerts|
  {
    seq(|alerts|, i requires 0 <= i < |alerts| =>
      if summary != "" && !alerts[i].resolved then alerts[i].(analysis := summary) else alerts[i])
  }

  /** The batch as the actions get it. */
  function Annotated(b: Batch, summary: string): Batch {
    b.(alerts := WithAnalysis(b.alerts, summary))
  }

  function AnnotatedAll(bs: seq<Batch>, analyze: Batch -> string): (r: seq<Batch>)
    ensures |r| == |bs| && forall i :: 0 <= i < |bs| ==> r[i] == Annotated(bs[i], analyze(bs[i]))
  {
    seq(|bs|, i requires 0 <= i < |bs| => Annotated(bs[i], analyze(bs[i])))
  }

  /** a is b with some analysis. */
  ghost predicate Annotates(a: Batch, b: Batch) {
    exists summary :: a == Annotated(b, summary)
  }

  // ---- Runs ----

  /** A batch in the channel, and whether it's a silenced alert that skipped incidents. */
  datatype Pushed = Pushed(batch: Batch, quiet: bool)

  datatype Traffic = Traffic(
    grouping: seq<Step>,   // the grouper's critical sections so far
    received: seq<Issue>,  // taken off the alert queue
    pushed: seq<Pushed>,   // sent on the batch channel
    delivered: seq<Batch>, // handed to the actions
    closed: bool)          // the queue was closed and everything held back was flushed

  datatype Move =
    | Receive(issue: Issue, now: Time)
    | Collect(order: seq<nat>, now: Time)  // Due, after a receive or a wake-up
    | Close(order: seq<nat>, now: Time)
    | Deliver(summary: string, now: Time)

  const IDLE := Traffic([], [], [], [], false)

  function AsPushed(bs: seq<Batch>, quiet: bool): seq<Pushed> {
    seq(|bs|, i requires 0 <= i < |bs| => Pushed(bs[i], quiet))
  }

  ghost predicate Possible(cfg: Config, w: Traffic, m: Move)
    requires Legal(cfg, w.grouping)
  {
    match m
    case Receive(issue, now) => !w.closed && Allowed(cfg, Run(cfg, w.grouping), AddStep(issue, now))
    case Collect(order, now) => !w.closed && Allowed(cfg, Run(cfg, w.grouping), TakeStep(Some(now), order, now))
    case Close(order, now) => !w.closed && Allowed(cfg, Run(cfg, w.grouping), TakeStep(None, order, now))
    case Deliver(summary, now) => |w.delivered| < |w.pushed| && Run(cfg, w.grouping).clock <= now
  }

  ghost function Made(cfg: Config, w: Traffic, m: Move): Traffic
    requires Legal(cfg, w.grouping) && Possible(cfg, w, m)
  {
    match m
    case Receive(issue, now) =>
      if issue.silenced then w.(received := w.received + [issue], pushed := w.pushed + [Pushed(Alone(issue), true)])
      else w.(received := w.received + [issue], grouping := w.grouping + [AddStep(issue, now)])
    case Collect(order, now) =>
      w.(grouping := w.grouping + [TakeStep(Some(now), order, now)],
         pushed := w.pushed + AsPushed(Out(Run(cfg, w.grouping).g, order), false))
    case Close(order, now) =>
      w.(grouping := w.grouping + [TakeStep(None, order, now)],
         pushed := w.pushed + AsPushed(Out(Run(cfg, w.grouping).g, order), false), closed := true)
    case Deliver(summary, now) =>
      var b := w.pushed[|w.delivered|].batch;
      w.(delivered := w.delivered + [Annotated(b, summary)],
         grouping := if summary != "" then w.grouping + [SummaryStep(b.incidentID, summary, now)] else w.grouping)
  }

  /** The worlds the dispatcher can be in, and the moves that led there. */
  ghost predicate Reachable(cfg: Config, moves: seq<Move>, w: Traffic)
    decreases |moves|
  {
    if moves == [] then w == IDLE
    else
      var n := |moves| - 1;
      exists w0 :: Reachable(cfg, moves[..n], w0) && Legal(cfg, w0.grouping) && Possible(cfg, w0, moves[n])
                   && w == Made(cfg, w0, moves[n])
  }

  // ---- Views of a run ----

  /** The batches in the channel's history that are quiet, or that aren't. */
  function Pick(ps: seq<Pushed>, quiet: bool): seq<Batch> {
    if ps == [] then []
    else
      var n := |ps| - 1;
      Pick(ps[..n], quiet) + (if ps[n].quiet == quiet then [ps[n].batch] else [])
  }

  function Heard(s: seq<Issue>, silenced: bool): seq<Issue> {
    if s == [] then []
    else
      var n := |s| - 1;
      Heard(s[..n], silenced) + (if s[n].silenced == silenced then [s[n]] else [])
  }

  function AllAlone(s: seq<Issue>): seq<Batch> {
    seq(|s|, i requires 0 <= i < |s| => Alone(s[i]))
  }

  /** An alert as it was when it came off the queue. */
  function Bare(issue: Issue): Issue {
    issue.(incidentID := 0, analysis := "")
  }

  function BareAll(s: seq<Issue>): seq<Issue> {
    seq(|s|, i requires 0 <= i < |s| => Bare(s[i]))
  }

  ghost predicate Good(cfg: Config, w: Traffic) {
    && Legal(cfg, w.grouping)
    && Pick(w.pushed, false) == Run(cfg, w.grouping).emitted
    && Pick(w.pushed, true) == AllAlone(Heard(w.received, true))
    && Added(w.grouping) == Heard(w.received, false)
    && |w.delivered| <= |w.pushed|
    && (forall k :: 0 <= k < |w.delivered| ==> Annotates(w.delivered[k], w.pushed[k].batch))
    && (w.closed ==> Drained(Run(cfg, w.grouping).g))
  }

  // ---- Every move keeps the books ----

  lemma {:induction false} PickConcat(a: seq<Pushed>, b: seq<Pushed>, quiet: bool)
    ensures Pick(a + b, quiet) == Pick(a, quiet) + Pick(b, quiet)
    decreases |b|
  {
    if b == [] {
      assert a + b == a;
    } else {
      var n := |b| - 1;
      assert (a + b)[..|a + b| - 1] == a + b[..n];
      PickConcat(a, b[..n], quiet);
    }
  }

  lemma {:induction false} PickAsPushed(bs: seq<Batch>, quiet: bool)
    ensures Pick(AsPushed(bs, quiet), quiet) == bs && Pick(AsPushed(bs, quiet), !quiet) == []
    decreases |bs|
  {
    if bs != [] {
      var n := |bs| - 1;
      PickAsPushed(bs[..n], quiet);
      assert AsPushed(bs, quiet)[..n] == AsPushed(bs[..n], quiet);
    }
  }

  lemma LegalMore(cfg: Config, steps: seq<Step>, s: Step)
    requires Legal(cfg, steps) && Allowed(cfg, Run(cfg, steps), s)
    ensures Legal(cfg, steps + [s]) && Run(cfg, steps + [s]) == Apply(cfg, Run(cfg, steps), s)
    ensures Added(steps + [s]) == Added(steps) + (if s.AddStep? then [s.issue] else [])
  {
    assert (steps + [s])[..|steps|] == steps;
  }

  lemma HeardMore(s: seq<Issue>, issue: Issue, silenced: bool)
    ensures Heard(s + [issue], silenced) == Heard(s, silenced) + (if issue.silenced == silenced then [issue] else [])
  {
    assert (s + [issue])[..|s|] == s;
  }

  lemma PickAlone(ps: seq<Pushed>, issue: Issue)
    ensures Pick(ps + [Pushed(Alone(issue), true)], true) == Pick(ps, true) + [Alone(issue)]
    ensures Pick(ps + [Pushed(Alone(issue), true)], false) == Pick(ps, false)
  {
    assert (ps + [Pushed(Alone(issue), true)])[..|ps|] == ps;
    assert Pick(ps, false) + [] == Pick(ps, false);
  }

  lemma AloneMore(s: seq<Issue>, issue: Issue)
    ensures AllAlone(s + [issue]) == AllAlone(s) + [Alone(issue)]
  {
  }

  lemma ReceiveKeeps(cfg: Config, w: Traffic, m: Move)
    requires Good(cfg, w) && Possible(cfg, w, m) && m.Receive?
    ensures Good(cfg, Made(cfg, w, m))
  {
    hide Pick, Heard, Legal, Run, Annotates, Annotated, Drained;
    HeardMore(w.received, m.issue, true);
    HeardMore(w.received, m.issue, false);
    if m.issue.silenced {
      PickAlone(w.pushed, m.issue);
      AloneMore(Heard(w.received, true), m.issue);
      DeliveredStill(w.delivered, w.pushed, [Pushed(Alone(m.issue), true)]);
      assert Heard(w.received, false) + [] == Heard(w.received, false);
    } else {
      assert Heard(w.received, true) + [] == Heard(w.received, true);
      LegalMore(cfg, w.grouping, AddStep(m.issue, m.now));
    }
  }

  lemma PushKeeps(ps: seq<Pushed>, out: seq<Batch>)
    ensures Pick(ps + AsPushed(out, false), false) == Pick(ps, false) + out
    ensures Pick(ps + AsPushed(out, false), true) == Pick(ps, true)
  {
    PickAsPushed(out, false);
    PickConcat(ps, AsPushed(out, false), true);
    PickConcat(ps, AsPushed(out, false), false);
  }

  lemma DeliveredStill(delivered: seq<Batch>, ps: seq<Pushed>, more: seq<Pushed>)
    requires |delivered| <= |ps| && forall k :: 0 <= k < |delivered| ==> Annotates(delivered[k], ps[k].batch)
    ensures |delivered| <= |ps + more| && forall k :: 0 <= k < |delivered| ==> Annotates(delivered[k], (ps + more)[k].batch)
  {
  }

  lemma TakeKeepsGood(cfg: Config, w: Traffic, m: Move)
    requires Good(cfg, w) && Possible(cfg, w, m) && (m.Collect? || m.Close?)
    ensures Good(cfg, Made(cfg, w, m))
  {
    var s := TakeStep(if m.Collect? then Some(m.now) else None, m.order, m.now);
    var out := Out(Run(cfg, w.grouping).g, m.order);
    LegalMore(cfg, w.grouping, s);
    PushKeeps(w.pushed, out);
    DeliveredStill(w.delivered, w.pushed, AsPushed(out, false));
    if m.Close? {
      FlushDrains(Run(cfg, w.grouping).g, m.order);
    }
  }

  lemma DeliverKeeps(cfg: Config, w: Traffic, m: Move)
    requires Good(cfg, w) && Possible(cfg, w, m) && m.Deliver?
    ensures Good(cfg, Made(cfg, w, m))
  {
    hide Pick, Heard, Legal, Run, Annotated;
    var b := w.pushed[|w.delivered|].batch;
    assert Annotates(Annotated(b, m.summary), b);
    if m.summary != "" {
      LegalMore(cfg, w.grouping, SummaryStep(b.incidentID, m.summary, m.now));
    }
  }

  lemma {:induction false} ReachableGood(cfg: Config, moves: seq<Move>, w: Traffic)
    requires Reachable(cfg, moves, w)
    ensures Good(cfg, w)
    decreases |moves|
  {
    if moves != [] {
      var n := |moves| - 1;
      var m := moves[n];
      var w0 :| Reachable(cfg, moves[..n], w0) && Legal(cfg, w0.grouping) && Possible(cfg, w0, m) && w == Made(cfg, w0, m);
      ReachableGood(cfg, moves[..n], w0);
      match m
      case Receive(_, _) => ReceiveKeeps(cfg, w0, m);
      case Collect(_, _) => TakeKeepsGood(cfg, w0, m);
      case Close(_, _) => TakeKeepsGood(cfg, w0, m);
      case Deliver(_, _) => DeliverKeeps(cfg, w0, m);
    }
  }

  // ---- End to end ----

  lemma SameMultisetBare(a: seq<Issue>, b: seq<Issue>)
    requires multiset(a) == multiset(b)
    ensures multiset(BareAll(a)) == multiset(BareAll(b))
  {
    SameBagMapped(Bare, a, b);
    assert BareAll(a) == Mapped(Bare, a) && BareAll(b) == Mapped(Bare, b);
  }

  lemma BareAllConcat(a: seq<Issue>, b: seq<Issue>)
    ensures BareAll(a + b) == BareAll(a) + BareAll(b)
  {
  }

  lemma {:induction false} PickSplits(ps: seq<Pushed>)
    ensures multiset(Flat(Batches(ps))) == multiset(Flat(Pick(ps, false))) + multiset(Flat(Pick(ps, true)))
    decreases |ps|
  {
    if ps != [] {
      var n := |ps| - 1;
      var q := ps[n].quiet;
      PickSplits(ps[..n]);
      FlatCount(Batches(ps[..n]), ps[n].batch);
      FlatCount(Pick(ps[..n], q), ps[n].batch);
      PickLast(ps, q);
    }
  }

  lemma PickLast(ps: seq<Pushed>, q: bool)
    requires ps != [] && ps[|ps| - 1].quiet == q
    ensures Pick(ps, q) == Pick(ps[..|ps| - 1], q) + [ps[|ps| - 1].batch]
    ensures Pick(ps, !q) == Pick(ps[..|ps| - 1], !q)
    ensures Batches(ps) == Batches(ps[..|ps| - 1]) + [ps[|ps| - 1].batch]
  {
  }

  lemma {:induction false} HeardSplits(s: seq<Issue>)
    ensures multiset(s) == multiset(Heard(s, false)) + multiset(Heard(s, true))
    decreases |s|
  {
    if s != [] {
      var n := |s| - 1;
      HeardSplits(s[..n]);
      assert s == s[..n] + [s[n]];
      assert Heard(s, s[n].silenced) == Heard(s[..n], s[n].silenced) + [s[n]];
      assert Heard(s, !s[n].silenced) == Heard(s[..n], !s[n].silenced);
    }
  }

  lemma {:induction false} FlatAllAlone(s: seq<Issue>)
    ensures Flat(AllAlone(s)) == s
    decreases |s|
  {
    if s != [] {
      assert AllAlone(s)[1..] == AllAlone(s[1..]);
      FlatAllAlone(s[1..]);
    }
  }

  lemma {:induction false} BareFlat(a: seq<Batch>, b: seq<Batch>)
    requires |a| == |b| && forall k :: 0 <= k < |a| ==> Annotates(a[k], b[k])
    ensures BareAll(Flat(a)) == BareAll(Flat(b))
    decreases |a|
  {
    if a != [] {
      var summary :| a[0] == Annotated(b[0], summary);
      assert BareAll(a[0].alerts) == BareAll(b[0].alerts);
      BareFlat(a[1..], b[1..]);
      BareAllConcat(a[0].alerts, Flat(a[1..]));
      BareAllConcat(b[0].alerts, Flat(b[1..]));
    }
  }

  function Batches(ps: seq<Pushed>): seq<Batch> {
    seq(|ps|, i requires 0 <= i < |ps| => ps[i].batch)
  }

  lemma BareOfFiled(cfg: Config, steps: seq<Step>)
    requires Legal(cfg, steps)
    ensures BareAll(AlertsOf(Run(cfg, steps).filed)) == BareAll(Added(steps))
  {
    FiledIsAdded(cfg, steps);
    forall i | 0 <= i < |Added(steps)|
      ensures Bare(AlertsOf(Run(cfg, steps).filed)[i]) == Bare(Added(steps)[i])
    {
      assert SameButID(Run(cfg, steps).filed[i].issue, Added(steps)[i]);
    }
  }

  /** What was pushed, once the queue is closed, is what was received. */
  lemma PushedIsReceived(cfg: Config, w: Traffic)
    requires Good(cfg, w) && w.closed
    ensures multiset(BareAll(Flat(Batches(w.pushed)))) == multiset(BareAll(w.received))
  {
    var g := Run(cfg, w.grouping);
    RunKeeps(cfg, w.grouping);
    forall id ensures Sent(id, g.emitted) == AlertsOf(FiledIn(id, g.filed)) {
      DrainedSentAll(cfg, g, id);
    }
    assert forall id :: Agree(id, g.emitted, g.filed);
    SameAlerts(g.emitted, g.filed);
    SameMultisetBare(Flat(g.emitted), AlertsOf(g.filed));
    BareOfFiled(cfg, w.grouping);
    PickSplits(w.pushed);
    FlatAllAlone(Heard(w.received, true));
    SameMultisetBare(Flat(Batches(w.pushed)), Flat(g.emitted) + Heard(w.received, true));
    BareAllConcat(Flat(g.emitted), Heard(w.received, true));
    HeardSplits(w.received);
    SameMultisetBare(w.received, Heard(w.received, false) + Heard(w.received, true));
    BareAllConcat(Heard(w.received, false), Heard(w.received, true));
  }

  /**
   Once the queue is closed and the channel is empty, every alert that came off the queue has been
   handed to the actions exactly once, changed in nothing but its incident and its analysis.
   */
  lemma NothingLostEndToEnd(cfg: Config, moves: seq<Move>, w: Traffic)
    requires Reachable(cfg, moves, w) && w.closed && |w.delivered| == |w.pushed|
    ensures multiset(BareAll(Flat(w.delivered))) == multiset(BareAll(w.received))
  {
    ReachableGood(cfg, moves, w);
    PushedIsReceived(cfg, w);
    BareFlat(w.delivered, Batches(w.pushed));
  }

  lemma {:induction false} SentMember(bs: seq<Batch>, k: nat, i: nat)
    requires k < |bs| && i < |bs[k].alerts|
    ensures bs[k].alerts[i] in Sent(bs[k].incidentID, bs)
    decreases |bs|
  {
    var n := |bs| - 1;
    var id := bs[k].incidentID;
    if k < n {
      SentMember(bs[..n], k, i);
      assert bs[..n][k] == bs[k];
      var j :| 0 <= j < |Sent(id, bs[..n])| && Sent(id, bs[..n])[j] == bs[k].alerts[i];
      assert Sent(id, bs)[j] == bs[k].alerts[i];
    } else {
      assert Sent(id, bs)[|Sent(id, bs[..n])| + i] == bs[k].alerts[i];
    }
  }

  lemma {:induction false} HeardAll(s: seq<Issue>, silenced: bool)
    ensures forall i :: i in Heard(s, silenced) ==> i.silenced == silenced
    decreases |s|
  {
    if s != [] {
      HeardAll(s[..|s| - 1], silenced);
    }
  }

  /** The grouper only ever sees alerts that aren't silenced. */
  lemma EmittedIsAudible(cfg: Config, w: Traffic, k: nat, i: nat)
    requires Good(cfg, w) && k < |Run(cfg, w.grouping).emitted| && i < |Run(cfg, w.grouping).emitted[k].alerts|
    ensures !Run(cfg, w.grouping).emitted[k].alerts[i].silenced
  {
    hide Run, Legal, Pick, Sent, FiledIn, Heard;
    var g := Run(cfg, w.grouping);
    var b := g.emitted[k];
    SentMember(g.emitted, k, i);
    FifoPerIncident(cfg, w.grouping, b.incidentID);
    var fs := FiledIn(b.incidentID, g.filed);
    var j :| 0 <= j < |Sent(b.incidentID, g.emitted)| && Sent(b.incidentID, g.emitted)[j] == b.alerts[i];
    assert AlertsOf(fs)[j] == b.alerts[i];
    FiledInMembers(b.incidentID, g.filed);
    assert fs[j] in fs;
    var n :| 0 <= n < |g.filed| && g.filed[n] == fs[j];
    FiledIsAdded(cfg, w.grouping);
    assert SameButID(g.filed[n].issue, Added(w.grouping)[n]);
    HeardAll(w.received, false);
    assert Added(w.grouping)[n] in Heard(w.received, false);
  }

  lemma {:induction false} PickMember(ps: seq<Pushed>, k: nat)
    requires k < |ps|
    ensures ps[k].batch in Pick(ps, ps[k].quiet)
    decreases |ps|
  {
    var n := |ps| - 1;
    if k < n {
      PickMember(ps[..n], k);
      assert ps[..n][k] == ps[k];
    }
  }

  /** Whoever gets a silenced alert gets nothing else with it, and it belongs to no incident. */
  lemma SilencedGoAlone(cfg: Config, moves: seq<Move>, w: Traffic, k: nat)
    requires Reachable(cfg, moves, w) && k < |w.delivered|
    requires exists i :: 0 <= i < |w.delivered[k].alerts| && w.delivered[k].alerts[i].silenced
    ensures |w.delivered[k].alerts| == 1 && w.delivered[k].incidentID == 0
    ensures !w.delivered[k].update && w.delivered[k].earlier == []
  {
    hide Reachable, Legal, Run, Pick, Heard;
    ReachableGood(cfg, moves, w);
    var p := w.pushed[k];
    assert Annotates(w.delivered[k], p.batch);
    var summary :| w.delivered[k] == Annotated(p.batch, summary);
    var i :| 0 <= i < |w.delivered[k].alerts| && w.delivered[k].alerts[i].silenced;
    assert p.batch.alerts[i].silenced;
    PickMember(w.pushed, k);
    if !p.quiet {
      var g := Run(cfg, w.grouping);
      var n :| 0 <= n < |g.emitted| && g.emitted[n] == p.batch;
      EmittedIsAudible(cfg, w, n, i);
    } else {
      var n :| 0 <= n < |AllAlone(Heard(w.received, true))| && AllAlone(Heard(w.received, true))[n] == p.batch;
    }
  }

  // ---- The goroutines ----

  /** The grouper once the dispatcher has dealt with an alert. */
  function AfterAlert(cfg: Config, g: State, issue: Issue, now: Time): State {
    if issue.silenced then g else Incidents.Add(cfg, g, issue, now)
  }

  /** The grouper once a batch has been sent. */
  function AfterBatch(g: State, b: Batch, summary: string): State {
    if summary != "" then Incidents.SetSummary(g, b.incidentID, summary) else g
  }

  function AfterBatches(g: State, bs: seq<Batch>, analyze: Batch -> string): State {
    if bs == [] then g
    else
      var n := |bs| - 1;
      AfterBatch(AfterBatches(g, bs[..n], analyze), bs[n], analyze(bs[n]))
  }

  // ---- What the goroutines do are moves ----

  /** The moves lead to a world in which the dispatcher's fields have these values. */
  ghost predicate Fits(cfg: Config, moves: seq<Move>, w: Traffic, g: State, batches: seq<Batch>, delivered: seq<Batch>) {
    && Reachable(cfg, moves, w) && Legal(cfg, w.grouping) && |w.delivered| <= |w.pushed|
    && Run(cfg, w.grouping).g == g && batches == Batches(w.pushed)[|w.delivered|..] && delivered == w.delivered
  }

  lemma OneMove(cfg: Config, moves: seq<Move>, w: Traffic, m: Move)
    requires Reachable(cfg, moves, w) && Legal(cfg, w.grouping) && Possible(cfg, w, m)
    ensures Reachable(cfg, moves + [m], Made(cfg, w, m))
  {
    hide Made, Possible;
    assert (moves + [m])[..|moves|] == moves;
  }

  lemma PushedLater(ps: seq<Pushed>, n: nat, bs: seq<Batch>, quiet: bool)
    requires n <= |ps|
    ensures Batches(ps + AsPushed(bs, quiet))[n..] == Batches(ps)[n..] + bs
  {
  }

  lemma ReceiveFits(cfg: Config, moves: seq<Move>, w: Traffic, g: State, batches: seq<Batch>, delivered: seq<Batch>,
                    issue: Issue, now: Time)
    requires Fits(cfg, moves, w, g, batches, delivered) && !w.closed && Run(cfg, w.grouping).clock <= now
    ensures var m := Receive(issue, now);
      && Fits(cfg, moves + [m], Made(cfg, w, m), AfterAlert(cfg, g, issue, now),
              batches + (if issue.silenced then [Alone(issue)] else []), delivered)
      && !Made(cfg, w, m).closed && Run(cfg, Made(cfg, w, m).grouping).clock <= now
  {
    hide Reachable, Batches, Incidents.Add;
    OneMove(cfg, moves, w, Receive(issue, now));
    if issue.silenced {
      assert [Pushed(Alone(issue), true)] == AsPushed([Alone(issue)], true);
      PushedLater(w.pushed, |w.delivered|, [Alone(issue)], true);
    } else {
      LegalMore(cfg, w.grouping, AddStep(issue, now));
      assert batches + [] == batches;
    }
  }

  lemma TakeFits(cfg: Config, moves: seq<Move>, w: Traffic, g: State, batches: seq<Batch>, delivered: seq<Batch>, m: Move)
    requires Fits(cfg, moves, w, g, batches, delivered) && (m.Collect? || m.Close?) && Possible(cfg, w, m)
    ensures Fits(cfg, moves + [m], Made(cfg, w, m), Incidents.Take(g, m.order), batches + Out(g, m.order), delivered)
  {
    hide Reachable, Batches, Incidents.Take, Out;
    OneMove(cfg, moves, w, m);
    LegalMore(cfg, w.grouping, TakeStep(if m.Collect? then Some(m.now) else None, m.order, m.now));
    PushedLater(w.pushed, |w.delivered|, Out(g, m.order), false);
  }

  /** What OnIssue does is a receive and a collect. */
  lemma IssueIsMoves(cfg: Config, moves: seq<Move>, w: Traffic, g: State, batches: seq<Batch>, delivered: seq<Batch>,
                     issue: Issue, order: seq<nat>, now: Time) returns (w': Traffic)
    requires Fits(cfg, moves, w, g, batches, delivered) && !w.closed && Run(cfg, w.grouping).clock <= now
    requires FlushOrder(AfterAlert(cfg, g, issue, now).open, Some(now), order)
    ensures var g' := AfterAlert(cfg, g, issue, now);
      Fits(cfg, moves + [Receive(issue, now)] + [Collect(order, now)], w', Incidents.Take(g', order),
           batches + (if issue.silenced then [Alone(issue)] else []) + Out(g', order), delivered)
  {
    hide Reachable, Batches, Incidents.Take, Out, AfterAlert, Made;
    ReceiveFits(cfg, moves, w, g, batches, delivered, issue, now);
    TakeFits(cfg, moves + [Receive(issue, now)], Made(cfg, w, Receive(issue, now)), AfterAlert(cfg, g, issue, now),
             batches + (if issue.silenced then [Alone(issue)] else []), delivered, Collect(order, now));
    w' := Made(cfg, Made(cfg, w, Receive(issue, now)), Collect(order, now));
  }

  /** What OnWake does is a collect. */
  lemma WakeIsMove(cfg: Config, moves: seq<Move>, w: Traffic, g: State, batches: seq<Batch>, delivered: seq<Batch>,
                   order: seq<nat>, now: Time) returns (w': Traffic)
    requires Fits(cfg, moves, w, g, batches, delivered) && !w.closed && Run(cfg, w.grouping).clock <= now
    requires FlushOrder(g.open, Some(now), order)
    ensures Fits(cfg, moves + [Collect(order, now)], w', Incidents.Take(g, order), batches + Out(g, order), delivered)
  {
    hide Reachable, Batches, Incidents.Take, Out, Made;
    TakeFits(cfg, moves, w, g, batches, delivered, Collect(order, now));
    w' := Made(cfg, w, Collect(order, now));
  }

  /** What OnClose does is a close. */
  lemma CloseIsMove(cfg: Config, moves: seq<Move>, w: Traffic, g: State, batches: seq<Batch>, delivered: seq<Batch>,
                    order: seq<nat>, now: Time) returns (w': Traffic)
    requires Fits(cfg, moves, w, g, batches, delivered) && !w.closed && Run(cfg, w.grouping).clock <= now
    requires FlushOrder(g.open, None, order)
    ensures Fits(cfg, moves + [Close(order, now)], w', Incidents.Take(g, order), batches + Out(g, order), delivered) && w'.closed
  {
    hide Reachable, Batches, Incidents.Take, Out;
    TakeFits(cfg, moves, w, g, batches, delivered, Close(order, now));
    w' := Made(cfg, w, Close(order, now));
  }

  /** One delivery for each batch of a group. */
  function Deliveries(bs: seq<Batch>, analyze: Batch -> string, now: Time): (moves: seq<Move>)
    ensures |moves| == |bs|
  {
    seq(|bs|, i requires 0 <= i < |bs| => Deliver(analyze(bs[i]), now))
  }

  lemma DeliverFits(cfg: Config, moves: seq<Move>, w: Traffic, g: State, batches: seq<Batch>, delivered: seq<Batch>,
                    summary: string, now: Time)
    requires Fits(cfg, moves, w, g, batches, delivered) && batches != [] && Run(cfg, w.grouping).clock <= now
    ensures var m := Deliver(summary, now);
      && Possible(cfg, w, m)
      && Fits(cfg, moves + [m], Made(cfg, w, m), AfterBatch(g, batches[0], summary), batches[1..],
              delivered + [Annotated(batches[0], summary)])
      && Run(cfg, Made(cfg, w, m).grouping).clock <= now
  {
    hide Reachable, Incidents.SetSummary;
    var m := Deliver(summary, now);
    assert batches[0] == w.pushed[|w.delivered|].batch;
    OneMove(cfg, moves, w, m);
    if summary != "" {
      LegalMore(cfg, w.grouping, SummaryStep(batches[0].incidentID, summary, now));
    }
    assert Batches(w.pushed)[|w.delivered|..][1..] == Batches(w.pushed)[|w.delivered| + 1..];
  }

  ghost predicate FitsBy(cfg: Config, moves: seq<Move>, w: Traffic, g: State, batches: seq<Batch>, delivered: seq<Batch>, now: Time) {
    Fits(cfg, moves, w, g, batches, delivered) && Run(cfg, w.grouping).clock <= now
  }

  /** What DeliverGroup does is one delivery after another, each leaving its summary with the incident, if that is open. */
  lemma {:induction false} GroupIsMoves(cfg: Config, moves: seq<Move>, w: Traffic, g: State, batches: seq<Batch>,
                                        delivered: seq<Batch>, n: nat, analyze: Batch -> string, now: Time) returns (w': Traffic)
    requires FitsBy(cfg, moves, w, g, batches, delivered, now) && n <= |batches|
    ensures FitsBy(cfg, moves + Deliveries(batches[..n], analyze, now), w', AfterBatches(g, batches[..n], analyze), batches[n..],
                   delivered + AnnotatedAll(batches[..n], analyze), now)
    decreases n
  {
    hide FitsBy, AfterBatch;
    if n == 0 {
      NoDeliveries(g, batches, analyze, now);
      assert moves + [] == moves && delivered + [] == delivered;
      w' := w;
    } else {
      var w1 := GroupIsMoves(cfg, moves, w, g, batches, delivered, n - 1, analyze, now);
      var before, sent := moves + Deliveries(batches[..n - 1], analyze, now), delivered + AnnotatedAll(batches[..n - 1], analyze);
      w' := OneDelivery(cfg, before, w1, AfterBatches(g, batches[..n - 1], analyze), batches[n - 1..], sent,
                        analyze(batches[n - 1]), now);
      OneMoreDelivery(g, batches, n, analyze, now);
      assert batches[n - 1..][1..] == batches[n..];
      assert before + [Deliver(analyze(batches[n - 1]), now)] == moves + Deliveries(batches[..n], analyze, now);
      assert sent + [Annotated(batches[n - 1], analyze(batches[n - 1]))] == delivered + AnnotatedAll(batches[..n], analyze);
    }
  }

  lemma OneDelivery(cfg: Config, moves: seq<Move>, w: Traffic, g: State, batches: seq<Batch>, delivered: seq<Batch>,
                    summary: string, now: Time) returns (w': Traffic)
    requires FitsBy(cfg, moves, w, g, batches, delivered, now) && batches != []
    ensures FitsBy(cfg, moves + [Deliver(summary, now)], w', AfterBatch(g, batches[0], summary), batches[1..],
                   delivered + [Annotated(batches[0], summary)], now)
  {
    hide Reachable;
    DeliverFits(cfg, moves, w, g, batches, delivered, summary, now);
    w' := Made(cfg, w, Deliver(summary, now));
  }

  lemma NoDeliveries(g: State, batches: seq<Batch>, analyze: Batch -> string, now: Time)
    ensures batches[..0] == [] && batches[0..] == batches
    ensures Deliveries(batches[..0], analyze, now) == [] && AnnotatedAll(batches[..0], analyze) == []
    ensures AfterBatches(g, batches[..0], analyze) == g
  {
  }

  lemma OneMoreDelivery(g: State, batches: seq<Batch>, n: nat, analyze: Batch -> string, now: Time)
    requires 0 < n <= |batches|
    ensures Deliveries(batches[..n], analyze, now) == Deliveries(batches[..n - 1], analyze, now) + [Deliver(analyze(batches[n - 1]), now)]
    ensures AnnotatedAll(batches[..n], analyze)
         == AnnotatedAll(batches[..n - 1], analyze) + [Annotated(batches[n - 1], analyze(batches[n - 1]))]
    ensures AfterBatches(g, batches[..n], analyze)
         == AfterBatch(AfterBatches(g, batches[..n - 1], analyze), batches[n - 1], analyze(batches[n - 1]))
  {
    assert batches[..n][..n - 1] == batches[..n - 1];
  }

  // ---- What the receivers get of the analysis ----

  /** The analyses, one for every batch delivered, in order; an empty one is none. */
  function Analyses(moves: seq<Move>): seq<string> {
    if moves == [] then []
    else
      var m := moves[|moves| - 1];
      Analyses(moves[..|moves| - 1]) + if m.Deliver? then [m.summary] else []
  }

  /** The same batch, whose firing alerts have the analysis if there is one. */
  ghost predicate CarriesAnalysis(sent: Batch, b: Batch, analysis: string) {
    && sent == b.(alerts := sent.alerts) && |sent.alerts| == |b.alerts|
    && forall k :: 0 <= k < |b.alerts| ==>
         sent.alerts[k] == if analysis == "" || b.alerts[k].resolved then b.alerts[k] else b.alerts[k].(analysis := analysis)
  }

  lemma AnnotatedCarries(b: Batch, analysis: string)
    ensures CarriesAnalysis(Annotated(b, analysis), b, analysis)
  {
  }

  lemma MadeAnalyses(cfg: Config, w: Traffic, m: Move, analyses: seq<string>)
    requires Legal(cfg, w.grouping) && Possible(cfg, w, m)
    requires |w.delivered| == |analyses| <= |w.pushed|
    requires forall i :: 0 <= i < |analyses| ==> CarriesAnalysis(w.delivered[i], w.pushed[i].batch, analyses[i])
    ensures var w', more := Made(cfg, w, m), analyses + if m.Deliver? then [m.summary] else [];
      && |w'.delivered| == |more| <= |w'.pushed|
      && forall i :: 0 <= i < |more| ==> CarriesAnalysis(w'.delivered[i], w'.pushed[i].batch, more[i])
  {
    hide Legal, Run, Annotated, CarriesAnalysis, Out;
    if m.Deliver? {
      AnnotatedCarries(w.pushed[|w.delivered|].batch, m.summary);
    }
  }

  /** Over every interleaving, what the receivers got is what was pushed, in order, each batch with its own analysis. */
  lemma {:induction false} ReceiversGetTheAnalysis(cfg: Config, moves: seq<Move>, w: Traffic)
    requires Reachable(cfg, moves, w)
    ensures |w.delivered| == |Analyses(moves)| <= |w.pushed|
    ensures forall i :: 0 <= i < |w.delivered| ==> CarriesAnalysis(w.delivered[i], w.pushed[i].batch, Analyses(moves)[i])
    decreases |moves|
  {
    hide CarriesAnalysis, Made, Possible, Legal;
    if moves != [] {
      var n := |moves| - 1;
      var w0 :| Reachable(cfg, moves[..n], w0) && Legal(cfg, w0.grouping) && Possible(cfg, w0, moves[n])
                && w == Made(cfg, w0, moves[n]);
      ReceiversGetTheAnalysis(cfg, moves[..n], w0);
      MadeAnalyses(cfg, w0, moves[n], Analyses(moves[..n]));
    }
  }

  class Dispatcher {
    const grouper: Grouper
    var batches: seq<Batch>    // the channel between the two goroutines
    var delivered: seq<Batch>  // handed to the actions

    constructor (grouper: Grouper)
      ensures this.grouper == grouper && batches == [] && delivered == []
    {
      this.grouper := grouper;
      batches, delivered := [], [];
    }

    /** One alert off the queue, then whatever is due. */
    method OnIssue(issue: Issue, now: Time) returns (ghost order: seq<nat>)
      modifies this, grouper
      ensures delivered == old(delivered)
      ensures var g := AfterAlert(grouper.cfg, old(grouper.State()), issue, now);
        && FlushOrder(g.open, Some(now), order)
        && grouper.State() == Incidents.Take(g, order)
        && batches == old(batches) + (if issue.silenced then [Alone(issue)] else []) + Out(g, order)
    {
      if issue.silenced {
        batches := batches + [Alone(issue)];
      } else {
        grouper.Add(issue, now);
        assert batches == batches + [];
      }
      ghost var g := grouper.State();
      assert g == AfterAlert(grouper.cfg, old(grouper.State()), issue, now);
      order := OnWake(now);
    }

    /** The timer for the next due batch went off. */
    method OnWake(now: Time) returns (ghost order: seq<nat>)
      modifies this, grouper
      ensures delivered == old(delivered)
      ensures FlushOrder(old(grouper.open), Some(now), order)
      ensures grouper.State() == Incidents.Take(old(grouper.State()), order)
      ensures batches == old(batches) + Out(old(grouper.State()), order)
    {
      var out;
      out, order := grouper.Due(now);
      batches := batches + out;
    }

    /** The queue was closed: everything held back goes out. */
    method OnClose() returns (ghost order: seq<nat>)
      modifies this, grouper
      ensures delivered == old(delivered) && Drained(grouper.State())
      ensures FlushOrder(old(grouper.open), None, order)
      ensures grouper.State() == Incidents.Take(old(grouper.State()), order)
      ensures batches == old(batches) + Out(old(grouper.State()), order)
    {
      var out;
      out, order := grouper.Flush();
      batches := batches + out;
    }

    /** Up to a group of the batches waiting in the channel, in the order they came. */
    method DeliverGroup(analyze: Batch -> string)
      modifies this, grouper
      ensures var n := if |old(batches)| < ANALYZE_BATCH then |old(batches)| else ANALYZE_BATCH;
        && batches == old(batches)[n..]
        && delivered == old(delivered) + AnnotatedAll(old(batches)[..n], analyze)
        && grouper.State() == AfterBatches(old(grouper.State()), old(batches)[..n], analyze)
    {
      var group, rest := [], batches;
      while |group| < ANALYZE_BATCH && rest != []
        invariant |group| <= ANALYZE_BATCH && batches == group + rest
        decreases |rest|
      {
        group, rest := group + [rest[0]], rest[1..];
      }
      assert group == batches[..|group|] && rest == batches[|group|..];
      batches := rest;
      SendAll(group, analyze);
    }

    method SendAll(group: seq<Batch>, analyze: Batch -> string)
      modifies this`delivered, grouper`open
      ensures delivered == old(delivered) + AnnotatedAll(group, analyze)
      ensures grouper.State() == AfterBatches(old(grouper.State()), group, analyze)
    {
      hide AfterBatch;
      for i := 0 to |group|
        invariant delivered == old(delivered) + AnnotatedAll(group[..i], analyze)
        invariant grouper.State() == AfterBatches(old(grouper.State()), group[..i], analyze)
      {
        assert group[..i + 1][..i] == group[..i];
        Send(group[i], analyze(group[i]));
      }
      assert group[..|group|] == group;
    }

    method Send(b: Batch, summary: string)
      modifies this`delivered, grouper`open
      ensures delivered == old(delivered) + [Annotated(b, summary)]
      ensures grouper.State() == AfterBatch(old(grouper.State()), b, summary)
    {
      if summary != "" {
        grouper.SetSummary(b.incidentID, summary);
      }
      delivered := delivered + [Annotated(b, summary)];
    }
  }
}

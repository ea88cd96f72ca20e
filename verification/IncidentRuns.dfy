/**
 Runs of the grouper. A run is a sequence of critical sections under the grouper's lock; beside the
 grouper's own state it keeps what was filed and what was emitted since the very first start.
 */
module IncidentRuns {
  import opened Base
  import opened Issues
  import opened Incidents

  /** One call of Add: the alert as filed, the incident it went to, when, and how many batches had been emitted by then. */
  datatype Filed = Filed(id: int, issue: Issue, at: Time, after: nat)

  datatype World = World(g: State, filed: seq<Filed>, emitted: seq<Batch>, clock: Time)

  datatype Step =
    | AddStep(issue: Issue, now: Time)
    | TakeStep(limit: Option<Time>, order: seq<nat>, now: Time)  // Due(limit), or Flush
    | SummaryStep(id: int, summary: string, now: Time)
    | RestartStep(now: Time)  // a clean shutdown, then a fresh grouper loading what was saved

  const START := World(EMPTY, [], [], 0)

  predicate Drained(g: State) {
    g.ready == [] && forall i :: 0 <= i < |g.open| ==> g.open[i].due.None?
  }

  /** Clocks don't run backwards, Due is asked about now, and a clean restart comes after Flush. */
  ghost predicate Allowed(cfg: Config, w: World, s: Step) {
    && w.clock <= s.now
    && (s.TakeStep? ==> FlushOrder(w.g.open, s.limit, s.order))
    && (s.RestartStep? ==> Drained(w.g))
  }

  function Apply(cfg: Config, w: World, s: Step): World
    requires s.TakeStep? ==> forall k :: 0 <= k < |s.order| ==> s.order[k] < |w.g.open|
  {
    match s
    case AddStep(issue, now) =>
      World(Add(cfg, w.g, issue, now),
            w.filed + [Filed(IDFor(cfg, w.g, issue, now), Tagged(cfg, w.g, issue, now), now, |w.emitted|)],
            w.emitted, now)
    case TakeStep(_, order, now) => w.(g := Take(w.g, order), emitted := w.emitted + Out(w.g, order), clock := now)
    case SummaryStep(id, summary, now) => w.(g := SetSummary(w.g, id, summary), clock := now)
    case RestartStep(now) => w.(g := Load(EMPTY, Save(w.g)), clock := now)
  }

  ghost predicate Legal(cfg: Config, steps: seq<Step>)
    decreases |steps|, 0
  {
    if steps == [] then true
    else
      var n := |steps| - 1;
      Legal(cfg, steps[..n]) && Allowed(cfg, Run(cfg, steps[..n]), steps[n])
  }

  ghost function Run(cfg: Config, steps: seq<Step>): World
    requires Legal(cfg, steps)
    decreases |steps|, 1
  {
    if steps == [] then START
    else
      var n := |steps| - 1;
      Apply(cfg, Run(cfg, steps[..n]), steps[n])
  }

  // ---- Reading the history ----

  /** The alerts in the batches of one incident, in order. */
  function Sent(id: int, bs: seq<Batch>): seq<Issue> {
    if bs == [] then []
    else
      var n := |bs| - 1;
      Sent(id, bs[..n]) + (if bs[n].incidentID == id then bs[n].alerts else [])
  }

  function FiledIn(id: int, fs: seq<Filed>): seq<Filed> {
    if fs == [] then []
    else
      var n := |fs| - 1;
      FiledIn(id, fs[..n]) + (if fs[n].id == id then [fs[n]] else [])
  }

  function AlertsOf(fs: seq<Filed>): seq<Issue> {
    seq(|fs|, i requires 0 <= i < |fs| => fs[i].issue)
  }

  ghost predicate Seen(bs: seq<Batch>, id: int) {
    exists i :: 0 <= i < |bs| && bs[i].incidentID == id
  }

  /** What the firing alerts in fs are about. */
  function Subjects(fs: seq<Filed>): set<Subject> {
    if fs == [] then {}
    else
      var n := |fs| - 1;
      Subjects(fs[..n]) + (if fs[n].issue.resolved then {} else SubjectsOf(fs[n].issue))
  }

  predicate AnyHost(fs: seq<Filed>) {
    exists i :: 0 <= i < |fs| && !fs[i].issue.resolved && IsHost(fs[i].issue)
  }

  function LastFiring(fs: seq<Filed>): Option<Time> {
    if fs == [] then None
    else
      var n := |fs| - 1;
      if fs[n].issue.resolved then LastFiring(fs[..n]) else Some(fs[n].at)
  }

  /** The firing alerts of an incident that were already sent, the latest few, without logs. */
  function Recent(id: int, bs: seq<Batch>): seq<Issue> {
    LastFew(Stripped(Sent(id, bs)))
  }

  /** What a batch says about the past is what was emitted before it. */
  ghost predicate Truthful(before: seq<Batch>, b: Batch) {
    && (b.update <==> b.incidentID != 0 && Seen(before, b.incidentID))
    && (b.Firing() && b.incidentID != 0 ==> b.earlier == Recent(b.incidentID, before))
  }

  ghost predicate TruthfulAll(bs: seq<Batch>) {
    forall i :: 0 <= i < |bs| ==> Truthful(bs[..i], bs[i])
  }

  // ---- How the history grows ----

  lemma {:induction false} SentConcat(id: int, a: seq<Batch>, b: seq<Batch>)
    ensures Sent(id, a + b) == Sent(id, a) + Sent(id, b)
    decreases |b|
  {
    if b == [] {
      assert a + b == a;
    } else {
      var n := |b| - 1;
      assert (a + b)[..|a + b| - 1] == a + b[..n];
      SentConcat(id, a, b[..n]);
    }
  }

  lemma {:induction false} SentNone(id: int, bs: seq<Batch>)
    requires !Seen(bs, id)
    ensures Sent(id, bs) == []
    decreases |bs|
  {
    if bs != [] {
      var n := |bs| - 1;
      forall i | 0 <= i < n ensures bs[..n][i].incidentID != id { assert bs[i].incidentID != id; }
      SentNone(id, bs[..n]);
      assert bs[n].incidentID != id;
    }
  }

  /** A list with one batch of the incident. */
  lemma {:induction false} SentOne(id: int, bs: seq<Batch>, k: nat)
    requires k < |bs| && bs[k].incidentID == id
    requires forall i :: 0 <= i < |bs| && i != k ==> bs[i].incidentID != id
    ensures Sent(id, bs) == bs[k].alerts
  {
    assert bs == bs[..k] + [bs[k]] + bs[k + 1..];
    SentConcat(id, bs[..k] + [bs[k]], bs[k + 1..]);
    SentConcat(id, bs[..k], [bs[k]]);
    SentNone(id, bs[..k]);
    SentNone(id, bs[k + 1..]);
    assert Sent(id, [bs[k]]) == bs[k].alerts by { assert [bs[k]][..0] == []; }
  }

  lemma {:induction false} StrippedConcat(a: seq<Issue>, b: seq<Issue>)
    ensures Stripped(a + b) == Stripped(a) + Stripped(b)
    decreases |b|
  {
    if b == [] {
      assert a + b == a;
    } else {
      var n := |b| - 1;
      assert (a + b)[..|a + b| - 1] == a + b[..n];
      StrippedConcat(a, b[..n]);
    }
  }

  lemma FiledInAppend(id: int, fs: seq<Filed>, f: Filed)
    ensures FiledIn(id, fs + [f]) == FiledIn(id, fs) + (if f.id == id then [f] else [])
  {
    assert (fs + [f])[..|fs|] == fs;
  }

  lemma {:induction false} FiledInNone(id: int, fs: seq<Filed>)
    requires forall f :: f in fs ==> f.id != id
    ensures FiledIn(id, fs) == []
    decreases |fs|
  {
    if fs != [] {
      FiledInNone(id, fs[..|fs| - 1]);
      assert fs[|fs| - 1] in fs;
    }
  }

  lemma {:induction false} FiledInMembers(id: int, fs: seq<Filed>)
    ensures forall f :: f in FiledIn(id, fs) <==> f in fs && f.id == id
    decreases |fs|
  {
    if fs != [] {
      var n := |fs| - 1;
      FiledInMembers(id, fs[..n]);
      assert fs == fs[..n] + [fs[n]];
    }
  }

  lemma AlertsOfAppend(fs: seq<Filed>, f: Filed)
    ensures AlertsOf(fs + [f]) == AlertsOf(fs) + [f.issue]
  {
  }

  lemma SubjectsAppend(fs: seq<Filed>, f: Filed)
    ensures Subjects(fs + [f]) == Subjects(fs) + (if f.issue.resolved then {} else SubjectsOf(f.issue))
    ensures AnyHost(fs + [f]) <==> AnyHost(fs) || (!f.issue.resolved && IsHost(f.issue))
    ensures LastFiring(fs + [f]) == if f.issue.resolved then LastFiring(fs) else Some(f.at)
  {
    var t := fs + [f];
    assert t[..|fs|] == fs;
    assert t[|fs|] == f;
    if AnyHost(fs) {
      var i :| 0 <= i < |fs| && !fs[i].issue.resolved && IsHost(fs[i].issue);
      assert t[i] == fs[i];
    }
  }

  lemma LastFewAgain(a: seq<Issue>, b: seq<Issue>)
    ensures LastFew(LastFew(a) + b) == LastFew(a + b)
  {
  }
}

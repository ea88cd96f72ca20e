/** What the grouper promises, for every run: nothing lost, nothing twice, nothing late, nothing out of order. */
module IncidentTheorems {
  import opened Base
  import opened Filters
  import opened Issues
  import opened Incidents
  import opened IncidentRuns
  import opened IncidentInvariant

  // ---- Runs and their prefixes ----

  lemma {:induction false} PrefixOfRun(cfg: Config, steps: seq<Step>, i: nat)
    requires Legal(cfg, steps) && i <= |steps|
    ensures Legal(cfg, steps[..i])
    ensures Run(cfg, steps[..i]).filed <= Run(cfg, steps).filed
    ensures Run(cfg, steps[..i]).emitted <= Run(cfg, steps).emitted
    decreases |steps|
  {
    if i == |steps| {
      assert steps[..i] == steps;
    } else {
      var n := |steps| - 1;
      assert steps[..n][..i] == steps[..i];
      PrefixOfRun(cfg, steps[..n], i);
    }
  }

  /** The alerts handed to Add, in order. */
  function Added(steps: seq<Step>): seq<Issue> {
    if steps == [] then []
    else
      var n := |steps| - 1;
      Added(steps[..n]) + (if steps[n].AddStep? then [steps[n].issue] else [])
  }

  ghost predicate SameButID(a: Issue, b: Issue) {
    a == b.(incidentID := a.incidentID)
  }

  /** Filing changes nothing about an alert but its incident. */
  lemma {:induction false} FiledIsAdded(cfg: Config, steps: seq<Step>)
    requires Legal(cfg, steps)
    ensures |Run(cfg, steps).filed| == |Added(steps)|
    ensures forall i :: 0 <= i < |Added(steps)| ==> SameButID(Run(cfg, steps).filed[i].issue, Added(steps)[i])
    decreases |steps|
  {
    if steps != [] {
      FiledIsAdded(cfg, steps[..|steps| - 1]);
    }
  }

  // ---- Conservation ----

  /** What was filed under an incident and hasn't been sent. */
  function Unsent(w: World, id: int): seq<Filed> {
    var n := |Sent(id, w.emitted)|;
    var fs := FiledIn(id, w.filed);
    if n <= |fs| then fs[n..] else []
  }

  lemma Books(cfg: Config, w: World, id: int)
    requires Inv(cfg, w)
    ensures Sent(id, w.emitted) <= AlertsOf(FiledIn(id, w.filed))
    ensures forall inc :: inc in w.g.open && inc.id == id ==> inc.pending == AlertsOf(Unsent(w, id))
    ensures !IsOpen(w.g.open, id) ==> Sent(id, w.g.ready) == AlertsOf(Unsent(w, id))
  {
    hide Sent, FiledIn, Seen, Subjects, Stripped;
    if IsOpen(w.g.open, id) {
      var inc :| inc in w.g.open && inc.id == id;
      assert Accounts(cfg, w.filed, w.emitted, inc);
      forall other | other in w.g.open && other.id == id ensures other == inc { }
      assert inc.pending == AlertsOf(FiledIn(id, w.filed))[|Sent(id, w.emitted)|..];
    } else {
      assert Sent(id, w.g.ready) == AlertsOf(FiledIn(id, w.filed))[|Sent(id, w.emitted)|..];
    }
  }

  /** Per incident, alerts go out in the order they were filed, none twice, and none made up. */
  lemma FifoPerIncident(cfg: Config, steps: seq<Step>, id: int)
    requires Legal(cfg, steps)
    ensures Sent(id, Run(cfg, steps).emitted) <= AlertsOf(FiledIn(id, Run(cfg, steps).filed))
  {
    RunKeeps(cfg, steps);
    Books(cfg, Run(cfg, steps), id);
  }

  lemma DrainedSentAll(cfg: Config, w: World, id: int)
    requires Inv(cfg, w) && Drained(w.g)
    ensures Sent(id, w.emitted) == AlertsOf(FiledIn(id, w.filed))
  {
    Books(cfg, w, id);
    if IsOpen(w.g.open, id) {
      var inc :| inc in w.g.open && inc.id == id;
      assert Accounts(cfg, w.filed, w.emitted, inc);
    }
    assert Sent(id, w.emitted) + [] == Sent(id, w.emitted);
  }

  /** The alerts in the batches, in order. */
  function Flat(bs: seq<Batch>): seq<Issue> {
    if bs == [] then [] else bs[0].alerts + Flat(bs[1..])
  }

  function Without(id: int, bs: seq<Batch>): seq<Batch> {
    if bs == [] then []
    else
      var n := |bs| - 1;
      Without(id, bs[..n]) + (if bs[n].incidentID == id then [] else [bs[n]])
  }

  function FiledWithout(id: int, fs: seq<Filed>): seq<Filed> {
    if fs == [] then []
    else
      var n := |fs| - 1;
      FiledWithout(id, fs[..n]) + (if fs[n].id == id then [] else [fs[n]])
  }

  lemma {:induction false} FlatAppend(bs: seq<Batch>, b: Batch)
    ensures Flat(bs + [b]) == Flat(bs) + b.alerts
    decreases |bs|
  {
    if bs == [] {
      assert [b][1..] == [];
    } else {
      assert (bs + [b])[1..] == bs[1..] + [b];
      FlatAppend(bs[1..], b);
    }
  }

  lemma FlatCount(bs: seq<Batch>, b: Batch)
    ensures multiset(Flat(bs + [b])) == multiset(Flat(bs)) + multiset(b.alerts)
  {
    FlatAppend(bs, b);
  }

  lemma SentLast(id: int, rest: seq<Batch>, b: Batch)
    ensures Sent(id, rest + [b]) == if b.incidentID == id then Sent(id, rest) + b.alerts else Sent(id, rest)
  {
    assert (rest + [b])[..|rest|] == rest;
    assert Sent(id, rest) + [] == Sent(id, rest);
  }

  lemma WithoutLast(id: int, rest: seq<Batch>, b: Batch)
    ensures Without(id, rest + [b]) == if b.incidentID == id then Without(id, rest) else Without(id, rest) + [b]
  {
    assert (rest + [b])[..|rest|] == rest;
    assert Without(id, rest) + [] == Without(id, rest);
  }

  lemma {:induction false} WithoutCounts(id: int, bs: seq<Batch>)
    ensures multiset(Flat(bs)) == multiset(Sent(id, bs)) + multiset(Flat(Without(id, bs)))
    decreases |bs|
  {
    if bs != [] {
      hide Sent, Without, Flat;
      var n := |bs| - 1;
      assert bs == bs[..n] + [bs[n]];
      WithoutCounts(id, bs[..n]);
      SentLast(id, bs[..n], bs[n]);
      WithoutLast(id, bs[..n], bs[n]);
      FlatCount(bs[..n], bs[n]);
      FlatCount(Without(id, bs[..n]), bs[n]);
    }
  }

  lemma {:induction false} WithoutKeepsOthers(id: int, other: int, bs: seq<Batch>)
    ensures Sent(other, Without(id, bs)) == if other == id then [] else Sent(other, bs)
    decreases |bs|
  {
    if bs != [] {
      var n := |bs| - 1;
      WithoutKeepsOthers(id, other, bs[..n]);
      var prefix := Without(id, bs[..n]);
      if bs[n].incidentID == id {
        assert Without(id, bs) == prefix;
        assert other != id ==> Sent(other, bs) == Sent(other, bs[..n]);
      } else {
        assert (prefix + [bs[n]])[..|prefix|] == prefix;
        assert Sent(id, prefix) + [] == Sent(id, prefix);
      }
    }
  }

  lemma {:induction false} WithoutIsShorter(id: int, bs: seq<Batch>)
    ensures |Without(id, bs)| <= |bs|
    ensures Seen(bs, id) ==> |Without(id, bs)| < |bs|
    decreases |bs|
  {
    if bs != [] {
      var n := |bs| - 1;
      WithoutIsShorter(id, bs[..n]);
      if Seen(bs, id) && bs[n].incidentID != id {
        var i :| 0 <= i < |bs| && bs[i].incidentID == id;
        assert bs[..n][i].incidentID == id;
      }
    }
  }

  lemma {:induction false} FiledWithoutCounts(id: int, fs: seq<Filed>)
    ensures multiset(AlertsOf(fs)) == multiset(AlertsOf(FiledIn(id, fs))) + multiset(AlertsOf(FiledWithout(id, fs)))
    decreases |fs|
  {
    if fs != [] {
      var n := |fs| - 1;
      var f := fs[n];
      FiledWithoutCounts(id, fs[..n]);
      assert fs == fs[..n] + [f];
      AlertsOfAppend(fs[..n], f);
      if f.id == id {
        assert FiledIn(id, fs) == FiledIn(id, fs[..n]) + [f];
        assert FiledWithout(id, fs) == FiledWithout(id, fs[..n]);
        AlertsOfAppend(FiledIn(id, fs[..n]), f);
      } else {
        assert FiledIn(id, fs) == FiledIn(id, fs[..n]);
        assert FiledWithout(id, fs) == FiledWithout(id, fs[..n]) + [f];
        AlertsOfAppend(FiledWithout(id, fs[..n]), f);
      }
    }
  }

  lemma {:induction false} FiledWithoutKeepsOthers(id: int, other: int, fs: seq<Filed>)
    ensures FiledIn(other, FiledWithout(id, fs)) == if other == id then [] else FiledIn(other, fs)
    decreases |fs|
  {
    if fs != [] {
      var n := |fs| - 1;
      FiledWithoutKeepsOthers(id, other, fs[..n]);
      var prefix := FiledWithout(id, fs[..n]);
      if fs[n].id == id {
        assert FiledWithout(id, fs) == prefix;
        assert other != id ==> FiledIn(other, fs) == FiledIn(other, fs[..n]);
      } else {
        FiledInAppend(other, prefix, fs[n]);
        assert FiledIn(id, prefix) + [] == FiledIn(id, prefix);
      }
    }
  }

  lemma NothingFiled(fs: seq<Filed>)
    requires forall id :: |FiledIn(id, fs)| == 0
    ensures fs == []
  {
    if fs != [] {
      FiledInMembers(fs[0].id, fs);
    }
  }

  ghost predicate Agree(id: int, bs: seq<Batch>, fs: seq<Filed>) {
    Sent(id, bs) == AlertsOf(FiledIn(id, fs))
  }

  /** Without one incident the others still agree. */
  lemma OthersAgree(id: int, other: int, bs: seq<Batch>, fs: seq<Filed>)
    requires Agree(other, bs, fs)
    ensures Agree(other, Without(id, bs), FiledWithout(id, fs))
  {
    hide Sent, FiledIn, Without, FiledWithout;
    WithoutKeepsOthers(id, other, bs);
    FiledWithoutKeepsOthers(id, other, fs);
  }

  lemma NothingSent(fs: seq<Filed>)
    requires forall id :: Agree(id, [], fs)
    ensures multiset(Flat([])) == multiset(AlertsOf(fs))
  {
    forall id ensures |FiledIn(id, fs)| == 0 {
      assert Agree(id, [], fs);
    }
    NothingFiled(fs);
  }

  /** Agreeing incident by incident is agreeing as a whole. */
  lemma {:induction false} SameAlerts(bs: seq<Batch>, fs: seq<Filed>)
    requires forall id :: Agree(id, bs, fs)
    ensures multiset(Flat(bs)) == multiset(AlertsOf(fs))
    decreases |bs|
  {
    hide Agree, Flat, AlertsOf, Without, FiledWithout, Sent, FiledIn;
    if bs == [] {
      NothingSent(fs);
    } else {
      var id := bs[0].incidentID;
      WithoutCounts(id, bs);
      WithoutIsShorter(id, bs);
      FiledWithoutCounts(id, fs);
      forall other ensures Agree(other, Without(id, bs), FiledWithout(id, fs)) {
        OthersAgree(id, other, bs, fs);
      }
      SameAlerts(Without(id, bs), FiledWithout(id, fs));
      AgreeIs(id, bs, fs);
    }
  }

  lemma AgreeIs(id: int, bs: seq<Batch>, fs: seq<Filed>)
    requires Agree(id, bs, fs)
    ensures Sent(id, bs) == AlertsOf(FiledIn(id, fs))
  {
  }

  lemma FlushDrains(g: State, order: seq<nat>)
    requires FlushOrder(g.open, None, order)
    ensures Drained(Take(g, order))
  {
  }

  /** Once everything is flushed, what went out is what came in: as a whole, and in order for every incident. */
  lemma FlushSendsEverything(cfg: Config, steps: seq<Step>)
    requires Legal(cfg, steps) && steps != [] && steps[|steps| - 1].TakeStep? && steps[|steps| - 1].limit == None
    ensures forall id :: Sent(id, Run(cfg, steps).emitted) == AlertsOf(FiledIn(id, Run(cfg, steps).filed))
    ensures multiset(Flat(Run(cfg, steps).emitted)) == multiset(AlertsOf(Run(cfg, steps).filed))
  {
    var n := |steps| - 1;
    var w := Run(cfg, steps);
    RunKeeps(cfg, steps);
    FlushDrains(Run(cfg, steps[..n]).g, steps[n].order);
    forall id ensures Sent(id, w.emitted) == AlertsOf(FiledIn(id, w.filed)) {
      DrainedSentAll(cfg, w, id);
    }
    assert forall id :: Agree(id, w.emitted, w.filed);
    SameAlerts(w.emitted, w.filed);
  }

  // ---- A resolution never overtakes its alert ----

  /** Where the n-th alert of an incident went out: which batch, and where in it. */
  function Locate(id: int, bs: seq<Batch>, n: nat): (at: (nat, nat))
    requires n < |Sent(id, bs)|
    ensures at.0 < |bs| && bs[at.0].incidentID == id
    ensures at.1 < |bs[at.0].alerts| && bs[at.0].alerts[at.1] == Sent(id, bs)[n]
  {
    var l := |bs| - 1;
    if n < |Sent(id, bs[..l])| then Locate(id, bs[..l], n) else (l, n - |Sent(id, bs[..l])|)
  }

  ghost predicate Before(a: (nat, nat), b: (nat, nat)) {
    a.0 < b.0 || (a.0 == b.0 && a.1 < b.1)
  }

  lemma {:induction false} LocateInOrder(id: int, bs: seq<Batch>, m: nat, n: nat)
    requires m < n < |Sent(id, bs)|
    ensures Before(Locate(id, bs, m), Locate(id, bs, n))
    decreases |bs|
  {
    var l := |bs| - 1;
    if n < |Sent(id, bs[..l])| {
      LocateInOrder(id, bs[..l], m, n);
    }
  }

  /** Which incident an episode belongs to only changes when that episode is added to. */
  lemma KeyStays(cfg: Config, w: World, s: Step, key: string)
    requires Allowed(cfg, w, s) && key in w.g.byKey
    requires !(s.AddStep? && s.issue.key == key)
    ensures key in Apply(cfg, w, s).g.byKey && Apply(cfg, w, s).g.byKey[key] == w.g.byKey[key]
  {
  }

  lemma {:induction false} KeyStaysAll(cfg: Config, steps: seq<Step>, i: nat, key: string)
    requires Legal(cfg, steps) && i <= |steps| && Legal(cfg, steps[..i]) && key in Run(cfg, steps[..i]).g.byKey
    requires forall k :: i <= k < |steps| ==> !(steps[k].AddStep? && steps[k].issue.key == key)
    ensures key in Run(cfg, steps).g.byKey
    ensures Run(cfg, steps).g.byKey[key] == Run(cfg, steps[..i]).g.byKey[key]
    decreases |steps|
  {
    if i == |steps| {
      assert steps[..i] == steps;
    } else {
      hide Apply;
      var n := |steps| - 1;
      assert steps[..n][..i] == steps[..i];
      KeyStaysAll(cfg, steps[..n], i, key);
      KeyStays(cfg, Run(cfg, steps[..n]), steps[n], key);
    }
  }

  /** The grouper remembers which incident the alert of an episode went to. */
  lemma AddRemembers(cfg: Config, g: State, issue: Issue, now: Time)
    requires cfg.enabled && !issue.resolved && issue.key != ""
    ensures Lookup(Add(cfg, g, issue, now).byKey, issue.key) == IDFor(cfg, g, issue, now)
    ensures issue.key in Add(cfg, g, issue, now).byKey
  {
  }

  /** A resolution is filed under the incident of the firing alert it follows. */
  lemma SameIncident(cfg: Config, steps: seq<Step>, i: nat, j: nat)
    requires Legal(cfg, steps) && i < j < |steps| && steps[i].AddStep? && steps[j].AddStep?
    requires Legal(cfg, steps[..i]) && Legal(cfg, steps[..j])
    requires !steps[i].issue.resolved && steps[j].issue.resolved
    requires steps[i].issue.key == steps[j].issue.key != ""
    requires forall k :: i < k < j ==> !(steps[k].AddStep? && steps[k].issue.key == steps[i].issue.key)
    ensures IDFor(cfg, Run(cfg, steps[..j]).g, steps[j].issue, steps[j].now)
            == IDFor(cfg, Run(cfg, steps[..i]).g, steps[i].issue, steps[i].now)
  {
    hide Add, Run, Legal, Lookup, IDFor;
    IDOfNone(cfg, Run(cfg, steps[..j]).g, steps[j].issue, steps[j].now);
    IDOfNone(cfg, Run(cfg, steps[..i]).g, steps[i].issue, steps[i].now);
    if cfg.enabled {
      PrefixOfRun(cfg, steps, i + 1);
      RunNext(cfg, steps, i);
      AddRemembers(cfg, Run(cfg, steps[..i]).g, steps[i].issue, steps[i].now);
      assert steps[..j][..i + 1] == steps[..i + 1];
      KeyStaysAll(cfg, steps[..j], i + 1, steps[i].issue.key);
      LookupIs(Run(cfg, steps[..i + 1]).g.byKey, Run(cfg, steps[..j]).g.byKey, steps[i].issue.key);
    }
  }

  lemma RunNext(cfg: Config, steps: seq<Step>, i: nat)
    requires i < |steps| && Legal(cfg, steps[..i]) && Legal(cfg, steps[..i + 1]) && steps[i].AddStep?
    ensures Run(cfg, steps[..i + 1]).g == Add(cfg, Run(cfg, steps[..i]).g, steps[i].issue, steps[i].now)
  {
    hide Add;
    assert steps[..i + 1][..i] == steps[..i];
  }

  lemma IDOfNone(cfg: Config, g: State, issue: Issue, now: Time)
    ensures !cfg.enabled ==> IDFor(cfg, g, issue, now) == 0
    ensures cfg.enabled && issue.resolved ==> IDFor(cfg, g, issue, now) == Lookup(g.byKey, issue.key)
  {
  }

  lemma LookupIs(a: map<string, int>, b: map<string, int>, key: string)
    requires key in a && key in b && a[key] == b[key]
    ensures Lookup(a, key) == Lookup(b, key)
  {
  }

  lemma FiledInGrows(id: int, fs: seq<Filed>, gs: seq<Filed>)
    requires fs <= gs
    ensures FiledIn(id, fs) <= FiledIn(id, gs)
    decreases |gs|
  {
    if |fs| < |gs| {
      FiledInGrows(id, fs, gs[..|gs| - 1]);
    } else {
      assert fs == gs;
    }
  }

  /** Its place among the alerts of its incident. */
  function Rank(w: World, n: nat): nat
    requires n < |w.filed|
  {
    |FiledIn(w.filed[n].id, w.filed[..n])|
  }

  lemma RankIsPlace(w: World, n: nat)
    requires n < |w.filed|
    ensures Rank(w, n) < |FiledIn(w.filed[n].id, w.filed)|
    ensures FiledIn(w.filed[n].id, w.filed)[Rank(w, n)] == w.filed[n]
  {
    var f := w.filed[n];
    assert w.filed[..n + 1] == w.filed[..n] + [f];
    FiledInAppend(f.id, w.filed[..n], f);
    FiledInGrows(f.id, w.filed[..n + 1], w.filed);
  }

  lemma FiledAt(cfg: Config, steps: seq<Step>, i: nat)
    requires Legal(cfg, steps) && i < |steps| && steps[i].AddStep?
    ensures Legal(cfg, steps[..i])
    ensures |Run(cfg, steps[..i]).filed| < |Run(cfg, steps).filed|
    ensures Run(cfg, steps).filed[|Run(cfg, steps[..i]).filed|].id
            == IDFor(cfg, Run(cfg, steps[..i]).g, steps[i].issue, steps[i].now)
    ensures SameButID(Run(cfg, steps).filed[|Run(cfg, steps[..i]).filed|].issue, steps[i].issue)
  {
    PrefixOfRun(cfg, steps, i);
    PrefixOfRun(cfg, steps, i + 1);
    assert steps[..i + 1][..i] == steps[..i];
  }

  /** Two alerts of one incident keep the order they were filed in. */
  lemma RanksInOrder(w: World, m: nat, n: nat)
    requires m < n < |w.filed| && w.filed[m].id == w.filed[n].id
    ensures Rank(w, m) < Rank(w, n) < |FiledIn(w.filed[n].id, w.filed)|
  {
    RankIsPlace(w, n);
    assert w.filed[..m + 1] == w.filed[..m] + [w.filed[m]];
    FiledInAppend(w.filed[m].id, w.filed[..m], w.filed[m]);
    FiledInGrows(w.filed[m].id, w.filed[..m + 1], w.filed[..n]);
  }

  /** If the n-th alert filed has gone out, an earlier one of the same incident has gone out before it. */
  lemma FiledFirstSentFirst(cfg: Config, w: World, m: nat, n: nat)
    requires Inv(cfg, w) && m < n < |w.filed| && w.filed[m].id == w.filed[n].id
    requires Rank(w, n) < |Sent(w.filed[n].id, w.emitted)|
    ensures var sent := Sent(w.filed[n].id, w.emitted);
      && Rank(w, m) < |sent|
      && sent[Rank(w, m)] == w.filed[m].issue && sent[Rank(w, n)] == w.filed[n].issue
      && Before(Locate(w.filed[n].id, w.emitted, Rank(w, m)), Locate(w.filed[n].id, w.emitted, Rank(w, n)))
  {
    RanksInOrder(w, m, n);
    RankIsPlace(w, m);
    RankIsPlace(w, n);
    Books(cfg, w, w.filed[n].id);
    LocateInOrder(w.filed[n].id, w.emitted, Rank(w, m), Rank(w, n));
  }

  /** The alert added at step i is the one filed at this place. */
  ghost function FiledIndex(cfg: Config, steps: seq<Step>, i: nat): (n: nat)
    requires Legal(cfg, steps) && i < |steps| && steps[i].AddStep?
    ensures n < |Run(cfg, steps).filed| && SameButID(Run(cfg, steps).filed[n].issue, steps[i].issue)
    ensures Legal(cfg, steps[..i]) && n == |Run(cfg, steps[..i]).filed|
  {
    FiledAt(cfg, steps, i);
    |Run(cfg, steps[..i]).filed|
  }

  lemma FiledOneAfterAnother(cfg: Config, steps: seq<Step>, i: nat, j: nat)
    requires Legal(cfg, steps) && i < j < |steps| && steps[i].AddStep? && steps[j].AddStep?
    ensures FiledIndex(cfg, steps, i) < FiledIndex(cfg, steps, j)
  {
    PrefixOfRun(cfg, steps, j);
    assert steps[..j][..i] == steps[..i];
    FiledAt(cfg, steps[..j], i);
  }

  /**
   If the alert of an episode is added at step i and its resolution at step j, with no other alert of
   that episode in between, then whenever the resolution has gone out, the alert has gone out before
   it: in an earlier batch, or earlier in the same one.
   */
  lemma ResolutionNeverOvertakes(cfg: Config, steps: seq<Step>, i: nat, j: nat)
    requires Legal(cfg, steps) && i < j < |steps| && steps[i].AddStep? && steps[j].AddStep?
    requires !steps[i].issue.resolved && steps[j].issue.resolved
    requires steps[i].issue.key == steps[j].issue.key != ""
    requires forall k :: i < k < j ==> !(steps[k].AddStep? && steps[k].issue.key == steps[i].issue.key)
    ensures var w := Run(cfg, steps);
      var f, r := FiledIndex(cfg, steps, i), FiledIndex(cfg, steps, j);
      var id := w.filed[r].id;
      && w.filed[f].id == id
      && (Rank(w, r) < |Sent(id, w.emitted)| ==>
            && Rank(w, f) < |Sent(id, w.emitted)|
            && Sent(id, w.emitted)[Rank(w, f)] == w.filed[f].issue && Sent(id, w.emitted)[Rank(w, r)] == w.filed[r].issue
            && Before(Locate(id, w.emitted, Rank(w, f)), Locate(id, w.emitted, Rank(w, r))))
  {
    var w := Run(cfg, steps);
    FiledAt(cfg, steps, i);
    FiledAt(cfg, steps, j);
    SameIncident(cfg, steps, i, j);
    FiledOneAfterAnother(cfg, steps, i, j);
    RunKeeps(cfg, steps);
    var f, r := FiledIndex(cfg, steps, i), FiledIndex(cfg, steps, j);
    if Rank(w, r) < |Sent(w.filed[r].id, w.emitted)| {
      FiledFirstSentFirst(cfg, w, f, r);
    }
  }

  // ---- Deadlines ----

  ghost predicate InOrder(fs: seq<Filed>) {
    forall i, j :: 0 <= i <= j < |fs| ==> fs[i].at <= fs[j].at
  }

  lemma InOrderAppend(fs: seq<Filed>, f: Filed)
    requires InOrder(fs) && forall g :: g in fs ==> g.at <= f.at
    ensures InOrder(fs + [f])
  {
  }

  lemma {:induction false} FiledInClocked(id: int, fs: seq<Filed>)
    requires InOrder(fs)
    ensures InOrder(FiledIn(id, fs))
    decreases |fs|
  {
    if fs != [] {
      var n := |fs| - 1;
      FiledInClocked(id, fs[..n]);
      FiledInMembers(id, fs[..n]);
      forall g | g in fs[..n] ensures g.at <= fs[n].at {
        var k :| 0 <= k < n && fs[..n][k] == g;
        assert fs[k] == g;
      }
      InOrderAppend(FiledIn(id, fs[..n]), fs[n]);
      assert FiledIn(id, fs[..n]) + [] == FiledIn(id, fs[..n]);
    }
  }

  /** An open incident is due no later than the wait after anything it still has to send. */
  lemma DueInTime(cfg: Config, w: World, inc: Incident, f: Filed)
    requires Inv(cfg, w) && inc in w.g.open && f in Unsent(w, inc.id)
    ensures inc.due.Some? && inc.due.value <= f.at + cfg.groupWait
  {
    assert Accounts(cfg, w.filed, w.emitted, inc);
    Books(cfg, w, inc.id);
    FiledInClocked(inc.id, w.filed);
    var fs := FiledIn(inc.id, w.filed);
    var i :| |Sent(inc.id, w.emitted)| <= i < |fs| && fs[i] == f;
    assert fs[|Sent(inc.id, w.emitted)|].at <= fs[i].at;
  }

  lemma NothingReady(id: int)
    ensures Sent(id, []) == []
  {
  }

  lemma TakeEmpties(g: State, order: seq<nat>, id: int)
    ensures Sent(id, Take(g, order).ready) == []
  {
  }

  /** What Take leaves pending wasn't to be taken. */
  lemma NotTaken(g: State, limit: Option<Time>, order: seq<nat>, i: nat)
    requires FlushOrder(g.open, limit, order) && i < |g.open| && Take(g, order).open[i].due.Some?
    ensures Take(g, order).open[i] == g.open[i] && !Takes(g.open[i], limit)
  {
  }

  lemma HeldIsYoung(cfg: Config, w: World, g: State, limit: Option<Time>, order: seq<nat>, id: int, f: Filed)
    requires Inv(cfg, w) && FlushOrder(g.open, limit, order) && w.g == Take(g, order) && f in Unsent(w, id)
    ensures limit.Some? && limit.value < f.at + cfg.groupWait
  {
    hide Inv, Take, FlushOrder, Unsent, Sent, FiledIn;
    Books(cfg, w, id);
    if IsOpen(w.g.open, id) {
      var inc :| inc in w.g.open && inc.id == id;
      DueInTime(cfg, w, inc, f);
      var i :| 0 <= i < |w.g.open| && w.g.open[i] == inc;
      TakeKeepsPlaces(g, order);
      NotTaken(g, limit, order, i);
    } else {
      TakeEmpties(g, order, id);
    }
  }

  lemma TakeKeepsPlaces(g: State, order: seq<nat>)
    ensures |Take(g, order).open| == |g.open|
  {
  }

  /** After Due at `limit`, whatever is still held was added less than the wait before that. */
  lemma DueSendsOnTime(cfg: Config, steps: seq<Step>, id: int, f: Filed)
    requires Legal(cfg, steps) && steps != [] && steps[|steps| - 1].TakeStep?
    requires f in Unsent(Run(cfg, steps), id)
    ensures steps[|steps| - 1].limit.Some? && steps[|steps| - 1].limit.value < f.at + cfg.groupWait
  {
    hide Inv, Take, FlushOrder, Unsent;
    var n := |steps| - 1;
    RunKeeps(cfg, steps);
    HeldIsYoung(cfg, Run(cfg, steps), Run(cfg, steps[..n]).g, steps[n].limit, steps[n].order, id, f);
  }

  /** While something is held, Next names a time that is already here or no later than anyone's deadline. */
  lemma NextInTime(cfg: Config, steps: seq<Step>, now: Time, id: int, f: Filed)
    requires Legal(cfg, steps) && f in Unsent(Run(cfg, steps), id)
    ensures var next := Next(Run(cfg, steps).g, now);
      next.Some? && (next.value <= now || next.value <= f.at + cfg.groupWait)
  {
    hide Inv, Sent, FiledIn, Run;
    var w := Run(cfg, steps);
    RunKeeps(cfg, steps);
    Books(cfg, w, id);
    if IsOpen(w.g.open, id) {
      var inc :| inc in w.g.open && inc.id == id;
      DueInTime(cfg, w, inc, f);
      var i :| 0 <= i < |w.g.open| && w.g.open[i] == inc;
      assert w.g.open[i].due.Some?;
    } else {
      assert |AlertsOf(Unsent(w, id))| > 0;
      NothingReady(id);
      assert w.g.ready != [];
    }
  }

  /** The deadline of an incident: the wait after the first alert it hasn't sent. */
  ghost predicate HasDeadline(cfg: Config, w: World, id: int, t: Time) {
    Unsent(w, id) != [] && t == Unsent(w, id)[0].at + cfg.groupWait
  }

  lemma DueIsDeadline(cfg: Config, w: World, inc: Incident)
    requires Inv(cfg, w) && inc in w.g.open
    ensures inc.due.Some? <==> Unsent(w, inc.id) != []
    ensures inc.due.Some? ==> HasDeadline(cfg, w, inc.id, inc.due.value)
  {
    hide Sent, FiledIn;
    Books(cfg, w, inc.id);
    assert Accounts(cfg, w.filed, w.emitted, inc);
  }

  lemma NothingHeld(cfg: Config, w: World, id: int)
    requires Inv(cfg, w) && w.g.ready == [] && Unsent(w, id) != []
    ensures IsOpen(w.g.open, id)
  {
    hide Inv, Unsent;
    Books(cfg, w, id);
    NothingReady(id);
    assert |AlertsOf(Unsent(w, id))| > 0;
  }

  /**
   * Next is now if a batch is ready. Otherwise it is the earliest deadline of all that is held, and there is none exactly
   * if nothing is held.
   */
  lemma NextIsTheEarliest(cfg: Config, steps: seq<Step>, now: Time)
    requires Legal(cfg, steps)
    ensures var w, next := Run(cfg, steps), Next(Run(cfg, steps).g, now);
      && (w.g.ready != [] ==> next == Some(now))
      && (w.g.ready == [] && next.None? ==> forall id :: Unsent(w, id) == [])
      && (w.g.ready == [] && next.Some? ==>
            && (exists id :: HasDeadline(cfg, w, id, next.value))
            && (forall id, t :: HasDeadline(cfg, w, id, t) ==> next.value <= t))
  {
    hide Run, Unsent, Inv;
    var w, next := Run(cfg, steps), Next(Run(cfg, steps).g, now);
    RunKeeps(cfg, steps);
    if w.g.ready == [] {
      forall id | Unsent(w, id) != []
        ensures next.Some? && forall t :: HasDeadline(cfg, w, id, t) ==> next.value <= t
      {
        NothingHeld(cfg, w, id);
        var inc :| inc in w.g.open && inc.id == id;
        DueIsDeadline(cfg, w, inc);
        var i :| 0 <= i < |w.g.open| && w.g.open[i] == inc;
      }
      if next.Some? {
        var k :| 0 <= k < |w.g.open| && w.g.open[k].due == next;
        DueIsDeadline(cfg, w, w.g.open[k]);
      }
    }
  }

  /** Due holds every incident back until its due time, the wait after the first alert it hasn't sent. */
  lemma NeverEarly(cfg: Config, steps: seq<Step>, limit: Option<Time>, order: seq<nat>, k: nat)
    requires Legal(cfg, steps) && FlushOrder(Run(cfg, steps).g.open, limit, order) && k < |order|
    ensures var w := Run(cfg, steps);
      var id := w.g.open[order[k]].id;
      && Unsent(w, id) != []
      && BatchOf(w.g.open[order[k]]).alerts == AlertsOf(Unsent(w, id))
      && (limit.Some? ==> Unsent(w, id)[0].at + cfg.groupWait <= limit.value)
  {
    var w := Run(cfg, steps);
    RunKeeps(cfg, steps);
    var inc := w.g.open[order[k]];
    assert inc in w.g.open;
    assert Accounts(cfg, w.filed, w.emitted, inc);
    Books(cfg, w, inc.id);
  }

  /** Of two incidents sent together, the one that goes first has the earlier deadline. */
  lemma EarlierDeadlineFirst(cfg: Config, steps: seq<Step>, limit: Option<Time>, order: seq<nat>, i: nat, j: nat)
    requires Legal(cfg, steps) && FlushOrder(Run(cfg, steps).g.open, limit, order)
    requires |Run(cfg, steps).g.ready| <= i < j < |Out(Run(cfg, steps).g, order)|
    ensures var w := Run(cfg, steps);
      var a, b := Out(w.g, order)[i].incidentID, Out(w.g, order)[j].incidentID;
      a != b && Unsent(w, a) != [] && Unsent(w, b) != [] && Unsent(w, a)[0].at <= Unsent(w, b)[0].at
  {
    hide Run, Inv, Unsent;
    RunKeeps(cfg, steps);
    var w := Run(cfg, steps);
    var r := |w.g.ready|;
    assert w.g.open[order[i - r]] in w.g.open && w.g.open[order[j - r]] in w.g.open;
    DueIsDeadline(cfg, w, w.g.open[order[i - r]]);
    DueIsDeadline(cfg, w, w.g.open[order[j - r]]);
    DifferentNumbers(cfg, w, order[i - r], order[j - r]);
  }

  lemma DifferentNumbers(cfg: Config, w: World, i: nat, j: nat)
    requires Inv(cfg, w) && i < |w.g.open| && j < |w.g.open| && i != j
    ensures w.g.open[i].id != w.g.open[j].id
  {
  }

  // ---- Identity ----

  /** Open incidents have distinct numbers, an incident that is opened gets a number nobody ever used. */
  lemma NumbersAreNeverReused(cfg: Config, steps: seq<Step>, issue: Issue, now: Time)
    requires Legal(cfg, steps) && cfg.enabled && !issue.resolved
    ensures var w := Run(cfg, steps);
      var id := IDFor(cfg, w.g, issue, now);
      && DistinctIDs(w.g.open)
      && (IsOpen(w.g.open, id)
          || (&& (forall f :: f in w.filed ==> f.id < id)
              && (forall b :: b in w.emitted ==> b.incidentID < id)
              && (forall k :: k in w.g.byKey ==> w.g.byKey[k] < id)
              && (forall inc :: inc in w.g.open ==> inc.id < id)))
  {
    RunKeeps(cfg, steps);
    var w := Run(cfg, steps);
    var open := Expire(cfg, w.g.open, now);
    var at := Choose(open, SubjectsOf(issue), IsHost(issue), |open|);
    if at.Some? {
      assert open[at.value] in w.g.open;
    }
  }

  /** The step at which the i-th batch went out. */
  ghost function WentOut(cfg: Config, steps: seq<Step>, i: nat): (k: nat)
    requires Legal(cfg, steps) && i < |Run(cfg, steps).emitted|
    ensures k < |steps|
    decreases |steps|
  {
    var n := |steps| - 1;
    if i < |Run(cfg, steps[..n]).emitted| then WentOut(cfg, steps[..n], i) else n
  }

  lemma CarriesAtTake(cfg: Config, w: World, limit: Option<Time>, order: seq<nat>, i: nat)
    requires Inv(cfg, w) && FlushOrder(w.g.open, limit, order)
    requires |w.emitted| <= i < |w.emitted + Out(w.g, order)|
    ensures var bs := w.emitted + Out(w.g, order);
      bs[i].earlier == if IsOpen(w.g.open, bs[i].incidentID) then Recent(bs[i].incidentID, bs[..i]) else []
  {
    hide Accounts, GoodReady, Recent, Out;
    var bs, e := w.emitted + Out(w.g, order), |w.emitted|;
    OutCarries(cfg, w, limit, order, i - e);
    assert bs[..i] == w.emitted + Out(w.g, order)[..i - e];
  }

  /** What the batch that went out at a step carries, by the incidents open right before. */
  ghost predicate CarriesThePast(cfg: Config, steps: seq<Step>, i: nat, bs: seq<Batch>)
    requires Legal(cfg, steps) && i < |bs|
  {
    bs[i].earlier ==
      if IsOpen(Run(cfg, steps).g.open, bs[i].incidentID) then LastFew(Stripped(Sent(bs[i].incidentID, bs[..i]))) else []
  }

  lemma {:induction false} EarlierIsExact(cfg: Config, steps: seq<Step>, i: nat)
    requires Legal(cfg, steps) && i < |Run(cfg, steps).emitted|
    ensures var k := WentOut(cfg, steps, i);
      steps[k].TakeStep? && Legal(cfg, steps[..k]) && CarriesThePast(cfg, steps[..k], i, Run(cfg, steps).emitted)
    decreases |steps|
  {
    hide Out, Take, Add, SetSummary, Load, Inv, IsOpen, Sent, Stripped, LastFew;
    var n := |steps| - 1;
    var w := Run(cfg, steps[..n]);
    PrefixOfRun(cfg, steps, n);
    if i < |w.emitted| {
      EarlierIsExact(cfg, steps[..n], i);
      var k := WentOut(cfg, steps[..n], i);
      assert steps[..n][..k] == steps[..k];
      assert Run(cfg, steps).emitted[..i] == w.emitted[..i] && Run(cfg, steps).emitted[i] == w.emitted[i];
    } else {
      RunKeeps(cfg, steps[..n]);
      CarriesAtTake(cfg, w, steps[n].limit, steps[n].order, i);
    }
  }

  /**
   * A batch is an update exactly when its incident was heard of before. It carries exactly its incident's latest past
   * alerts if the incident was open when it went out, and nothing if not. With a firing alert in it, it carries them.
   */
  lemma BatchesTellTheTruth(cfg: Config, steps: seq<Step>, i: nat)
    requires Legal(cfg, steps) && i < |Run(cfg, steps).emitted|
    ensures var bs := Run(cfg, steps).emitted;
      var k := WentOut(cfg, steps, i);
      && (bs[i].update <==> bs[i].incidentID != 0 && exists j :: 0 <= j < i && bs[j].incidentID == bs[i].incidentID)
      && Legal(cfg, steps[..k])
      && bs[i].earlier == (if IsOpen(Run(cfg, steps[..k]).g.open, bs[i].incidentID)
                           then LastFew(Stripped(Sent(bs[i].incidentID, bs[..i]))) else [])
      && (bs[i].Firing() && bs[i].incidentID != 0 ==> bs[i].earlier == LastFew(Stripped(Sent(bs[i].incidentID, bs[..i]))))
  {
    RunKeeps(cfg, steps);
    EarlierIsExact(cfg, steps, i);
    var bs := Run(cfg, steps).emitted;
    assert Truthful(bs[..i], bs[i]);
    if j :| 0 <= j < i && bs[j].incidentID == bs[i].incidentID {
      assert bs[..i][j].incidentID == bs[i].incidentID;
    }
  }

  function IsFiring(): Issue -> bool {
    (issue: Issue) => !issue.resolved
  }

  function WithoutLogs(s: seq<Issue>): (r: seq<Issue>)
    ensures |r| == |s| && forall i :: 0 <= i < |s| ==> r[i] == s[i].(logs := [])
  {
    seq(|s|, i requires 0 <= i < |s| => s[i].(logs := []))
  }

  lemma {:induction false} StrippedIs(s: seq<Issue>)
    ensures Stripped(s) == WithoutLogs(Filter(s, IsFiring()))
  {
    if s != [] {
      StrippedIs(s[..|s| - 1]);
    }
  }

  /** What a batch carries of the past: the firing alerts without logs, all or the last twenty. */
  lemma AtMostTwenty(s: seq<Issue>)
    ensures var few, all := LastFew(Stripped(s)), WithoutLogs(Filter(s, IsFiring()));
      |few| == (if |all| < 20 then |all| else 20) && few == all[|all| - |few|..]
  {
    StrippedIs(s);
  }

  // ---- A resolution that carries nothing ----

  const ONE_MINUTE: Time := 60 * 1_000_000_000

  /** Everything is sent at once, and an incident is over after a minute. */
  const AT_ONCE := Config(true, 0, ONE_MINUTE)

  /** An alert is sent; its problem is over five minutes later, when its incident has expired. */
  function LateResolution(alert: Issue): seq<Step> {
    [AddStep(alert, 0), TakeStep(Some(0), [0], 0), AddStep(alert.(resolved := true), 5 * ONE_MINUTE),
     TakeStep(Some(5 * ONE_MINUTE), [], 5 * ONE_MINUTE)]
  }

  /** The incident after its alert was sent. */
  function LeftOpen(alert: Issue): Incident {
    Incident(1, SubjectsOf(alert), IsHost(alert), 0, true, [], None, [alert.(incidentID := 1, logs := [])], "")
  }

  lemma OneAdded(alert: Issue)
    requires !alert.resolved && alert.key != ""
    ensures var inc := Join(AT_ONCE, NewIncident(1, 0), alert.(incidentID := 1), 0);
      Add(AT_ONCE, EMPTY, alert, 0) == State(1, [inc], map[alert.key := 1], [])
  {
    assert Expire(AT_ONCE, [], 0) == [];
    assert Choose([], SubjectsOf(alert), IsHost(alert), 0) == None;
  }

  lemma OneSent(alert: Issue)
    requires !alert.resolved && alert.key != ""
    ensures var g := Add(AT_ONCE, EMPTY, alert, 0);
      && FlushOrder(g.open, Some(0), [0])
      && Take(g, [0]) == State(1, [LeftOpen(alert)], map[alert.key := 1], [])
      && Out(g, [0]) == [Batch(1, false, [alert.(incidentID := 1)], [], "")]
  {
    OneAdded(alert);
    var tagged := alert.(incidentID := 1);
    var inc := Join(AT_ONCE, NewIncident(1, 0), tagged, 0);
    PastOfOne(tagged);
    assert [] + [tagged] == [tagged] && [] + Stripped([tagged]) == Stripped([tagged]);
    assert {} + SubjectsOf(tagged) == SubjectsOf(alert);
    assert AfterSend(inc) == LeftOpen(alert);
  }

  lemma PastOfOne(alert: Issue)
    requires !alert.resolved
    ensures Stripped([alert]) == [alert.(logs := [])] && LastFew(Stripped([alert])) == [alert.(logs := [])]
  {
    assert [alert][..0] == [];
    assert Stripped([alert]) == Stripped([]) + [alert.(logs := [])];
  }

  lemma OneResolved(alert: Issue)
    requires !alert.resolved && alert.key != ""
    ensures var over := alert.(resolved := true);
      Add(AT_ONCE, State(1, [LeftOpen(alert)], map[alert.key := 1], []), over, 5 * ONE_MINUTE)
        == State(1, [], map[], [Batch(1, true, [over.(incidentID := 1)], [], "")])
  {
    var inc := LeftOpen(alert);
    assert [inc][..0] == [];
    assert Quiet(AT_ONCE, inc, 5 * ONE_MINUTE);
    assert Expire(AT_ONCE, [inc], 5 * ONE_MINUTE) == Expire(AT_ONCE, [], 5 * ONE_MINUTE) + [];
    assert map[alert.key := 1] - {alert.key} == map[];
  }

  lemma RunOne(cfg: Config, steps: seq<Step>, s: Step)
    requires Legal(cfg, steps) && Allowed(cfg, Run(cfg, steps), s)
    ensures Legal(cfg, steps + [s]) && Run(cfg, steps + [s]) == Apply(cfg, Run(cfg, steps), s)
  {
    hide Allowed, Apply;
    assert (steps + [s])[..|steps|] == steps;
  }

  lemma AlertGoesOut(alert: Issue)
    requires !alert.resolved && alert.key != ""
    ensures var s := LateResolution(alert)[..2];
      && Legal(AT_ONCE, s)
      && Run(AT_ONCE, s).g == State(1, [LeftOpen(alert)], map[alert.key := 1], [])
      && Run(AT_ONCE, s).emitted == [Batch(1, false, [alert.(incidentID := 1)], [], "")]
      && Run(AT_ONCE, s).clock == 0
  {
    hide Add, Take, Out, Run, Legal, IDFor, Tagged, FlushOrder;
    var s := LateResolution(alert);
    OneSent(alert);
    OneAdded(alert);
    RunNone(AT_ONCE);
    RunOne(AT_ONCE, [], s[0]);
    assert [] + [s[0]] == [s[0]];
    RunOne(AT_ONCE, [s[0]], s[1]);
    assert [s[0]] + [s[1]] == s[..2];
  }

  lemma RunNone(cfg: Config)
    ensures Legal(cfg, []) && Run(cfg, []) == START
  {
  }

  lemma LateResolutionRuns(alert: Issue)
    requires !alert.resolved && alert.key != ""
    ensures Legal(AT_ONCE, LateResolution(alert))
    ensures Run(AT_ONCE, LateResolution(alert)).emitted
         == [Batch(1, false, [alert.(incidentID := 1)], [], ""),
             Batch(1, true, [alert.(resolved := true, incidentID := 1)], [], "")]
  {
    hide Add, Take, Out, Run, Legal, IDFor, Tagged, FlushOrder;
    var s := LateResolution(alert);
    AlertGoesOut(alert);
    OneResolved(alert);
    RunOne(AT_ONCE, s[..2], s[2]);
    assert s[..2] + [s[2]] == s[..3];
    NothingDue();
    RunOne(AT_ONCE, s[..3], s[3]);
    assert s[..3] + [s[3]] == s;
    JustReady(Run(AT_ONCE, s[..3]).g);
  }

  lemma NothingDue()
    ensures FlushOrder([], Some(5 * ONE_MINUTE), [])
  {
  }

  lemma JustReady(g: State)
    ensures Out(g, []) == g.ready
  {
  }

  /** Its resolution goes out with nothing earlier, although the alert was sent. */
  lemma LateResolutionCarriesNothing(alert: Issue)
    requires !alert.resolved && alert.key != ""
    ensures Legal(AT_ONCE, LateResolution(alert))
    ensures var bs := Run(AT_ONCE, LateResolution(alert)).emitted;
      && |bs| == 2 && bs[1].incidentID == 1 && bs[1].update && bs[1].earlier == []
      && LastFew(Stripped(Sent(1, bs[..1]))) == [alert.(incidentID := 1, logs := [])]
  {
    hide Run, Sent, Stripped, LastFew;
    LateResolutionRuns(alert);
    var bs := Run(AT_ONCE, LateResolution(alert)).emitted;
    OneBatch(bs, alert.(incidentID := 1));
    PastOfOne(alert.(incidentID := 1));
  }

  lemma OneBatch(bs: seq<Batch>, alert: Issue)
    requires |bs| > 0 && bs[0].incidentID == 1 && bs[0].alerts == [alert]
    ensures Sent(1, bs[..1]) == [alert]
  {
    assert bs[..1] == [] + [bs[0]] && [alert] == [] + [alert];
    SentLast(1, [], bs[0]);
  }

  // ---- Connectedness ----

  /**
   A firing alert that isn't its incident's first is about the host, follows one that is, or shares a
   subject with an earlier one; and when it joined, the last firing alert was less than a window old
   or something was still unsent.
   */
  lemma IncidentsAreConnected(cfg: Config, steps: seq<Step>, n: nat)
    requires Legal(cfg, steps) && cfg.enabled && n < |Run(cfg, steps).filed| && !Run(cfg, steps).filed[n].issue.resolved
    ensures var w := Run(cfg, steps);
      var f := w.filed[n];
      var earlier := FiledIn(f.id, w.filed[..n]);
      LastFiring(earlier).Some? ==>
        && (IsHost(f.issue) || AnyHost(earlier) || Subjects(earlier) * SubjectsOf(f.issue) != {})
        && f.after <= |w.emitted|
        && (f.at - LastFiring(earlier).value < cfg.window || |Sent(f.id, w.emitted[..f.after])| < |earlier|)
  {
    RunKeeps(cfg, steps);
    var w := Run(cfg, steps);
    assert Belongs(cfg, w.filed[n], w.filed[..n], w.emitted);
  }
}

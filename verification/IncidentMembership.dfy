/** Which incident an alert is filed under, judged by what was filed and sent before. */
module IncidentMembership {
  import opened Base
  import opened Issues
  import opened Incidents
  import opened IncidentRuns
  import opened IncidentInvariant
  import opened IncidentTheorems

  // ---- What belongs together ----

  /** The same container, the same project, or one of them is about the host. */
  predicate Related(a: Issue, b: Issue) {
    || a.container.name == "" || b.container.name == ""
    || a.container.name == b.container.name
    || (a.container.Project() != "" && a.container.Project() == b.container.Project())
  }

  /** A firing alert among these is related to the issue. */
  ghost predicate Linked(issue: Issue, fs: seq<Filed>) {
    exists i :: 0 <= i < |fs| && !fs[i].issue.resolved && Related(issue, fs[i].issue)
  }

  lemma RelatedIs(a: Issue, b: Issue)
    ensures Related(a, b) <==> IsHost(a) || IsHost(b) || SubjectsOf(a) * SubjectsOf(b) != {}
  {
    if a.container.name == b.container.name && !IsHost(a) {
      assert OfContainer(a.container.name) in SubjectsOf(a) * SubjectsOf(b);
    }
    if !IsHost(a) && !IsHost(b) && a.container.Project() != "" && a.container.Project() == b.container.Project() {
      assert OfProject(a.container.Project()) in SubjectsOf(a) * SubjectsOf(b);
    }
    if SubjectsOf(a) * SubjectsOf(b) != {} {
      var s :| s in SubjectsOf(a) * SubjectsOf(b);
    }
  }

  lemma LinkedAppend(issue: Issue, fs: seq<Filed>, f: Filed)
    ensures Linked(issue, fs + [f]) <==> Linked(issue, fs) || (!f.issue.resolved && Related(issue, f.issue))
  {
    hide Related;
    var more := fs + [f];
    if Linked(issue, fs) {
      var i :| 0 <= i < |fs| && !fs[i].issue.resolved && Related(issue, fs[i].issue);
      assert more[i] == fs[i];
    }
    if !f.issue.resolved && Related(issue, f.issue) {
      assert more[|fs|] == f;
    }
    if Linked(issue, more) {
      var i :| 0 <= i < |more| && !more[i].issue.resolved && Related(issue, more[i].issue);
      assert i < |fs| ==> fs[i] == more[i];
    }
  }

  lemma MeetsMore(a: set<Subject>, b: set<Subject>, c: set<Subject>)
    ensures (a + b) * c != {} <==> a * c != {} || c * b != {}
  {
    assert (a + b) * c == a * c + c * b;
  }

  lemma NothingLinked(issue: Issue)
    ensures !Linked(issue, []) && Subjects([]) == {} && !AnyHost([]) && LastFiring([]).None?
  {
  }

  /** The subjects an incident has collected and its mark for host alerts decide the same. */
  lemma {:induction false} LinkedIs(issue: Issue, fs: seq<Filed>)
    ensures Linked(issue, fs) <==>
      LastFiring(fs).Some? && (IsHost(issue) || AnyHost(fs) || Subjects(fs) * SubjectsOf(issue) != {})
    decreases |fs|
  {
    hide SubjectsOf, IsHost, Related, Subjects, AnyHost, Linked, LastFiring;
    if fs == [] {
      NothingLinked(issue);
    } else {
      var n := |fs| - 1;
      var f := fs[n];
      assert fs[..n] + [f] == fs;
      LinkedIs(issue, fs[..n]);
      LinkedAppend(issue, fs[..n], f);
      SubjectsAppend(fs[..n], f);
      RelatedIs(issue, f.issue);
      MeetsMore(Subjects(fs[..n]), SubjectsOf(f.issue), SubjectsOf(issue));
      NothingHost(fs[..n]);
    }
  }

  lemma {:induction false} NothingHost(fs: seq<Filed>)
    ensures LastFiring(fs).None? ==> !AnyHost(fs) && Subjects(fs) == {}
    decreases |fs|
  {
    if fs != [] {
      hide SubjectsOf, IsHost, AnyHost;
      var n := |fs| - 1;
      NothingHost(fs[..n]);
      assert fs[..n] + [fs[n]] == fs;
      SubjectsAppend(fs[..n], fs[n]);
    } else {
      NoHost();
    }
  }

  lemma NoHost()
    ensures !AnyHost([])
  {
  }

  // ---- Incidents in use ----

  /** Nothing of the incident is unsent, and its last firing alert is a window ago. */
  ghost predicate Over(cfg: Config, w: World, id: int, now: Time) {
    var fs := FiledIn(id, w.filed);
    && |Sent(id, w.emitted)| == |fs|
    && (LastFiring(fs).Some? ==> now - LastFiring(fs).value >= cfg.window)
  }

  ghost predicate Opens(cfg: Config, steps: seq<Step>, id: int)
    requires Legal(cfg, steps)
  {
    var w := Run(cfg, steps);
    && steps != [] && steps[|steps| - 1].AddStep? && !steps[|steps| - 1].issue.resolved
    && w.filed != [] && w.filed[|w.filed| - 1].id == id
  }

  /**
   * An incident is in use from a firing alert filed under it on, until an alert is filed when it is over, or nodux is
   * restarted.
   */
  ghost predicate InUse(cfg: Config, steps: seq<Step>, id: int)
    requires Legal(cfg, steps)
    decreases |steps|
  {
    if steps == [] then false
    else
      var n := |steps| - 1;
      match steps[n]
      case AddStep(_, now) =>
        Opens(cfg, steps, id) || (InUse(cfg, steps[..n], id) && !Over(cfg, Run(cfg, steps[..n]), id, now))
      case RestartStep(_) => false
      case _ => InUse(cfg, steps[..n], id)
  }

  lemma OverIsQuiet(cfg: Config, w: World, inc: Incident, now: Time)
    requires Accounts(cfg, w.filed, w.emitted, inc)
    ensures Over(cfg, w, inc.id, now) <==> Quiet(cfg, inc, now)
  {
    var fs := FiledIn(inc.id, w.filed);
    assert |AlertsOf(fs)| == |fs|;
  }

  lemma ExpireOpens(cfg: Config, w: World, now: Time, id: int)
    requires forall inc :: inc in w.g.open ==> Accounts(cfg, w.filed, w.emitted, inc)
    requires DistinctIDs(w.g.open)
    ensures IsOpen(Expire(cfg, w.g.open, now), id) <==> IsOpen(w.g.open, id) && !Over(cfg, w, id, now)
  {
    hide Accounts, Over, Quiet;
    var kept := Expire(cfg, w.g.open, now);
    if IsOpen(kept, id) {
      var inc :| inc in kept && inc.id == id;
      OverIsQuiet(cfg, w, inc, now);
    }
    if IsOpen(w.g.open, id) && !Over(cfg, w, id, now) {
      var inc :| inc in w.g.open && inc.id == id;
      OverIsQuiet(cfg, w, inc, now);
      assert inc in kept;
    }
  }

  lemma AddOpens(cfg: Config, w: World, issue: Issue, now: Time, id: int)
    requires Inv(cfg, w) && cfg.enabled
    ensures IsOpen(Add(cfg, w.g, issue, now).open, id) <==>
      (IsOpen(w.g.open, id) && !Over(cfg, w, id, now)) || (!issue.resolved && id == IDFor(cfg, w.g, issue, now))
  {
    hide Accounts, Over, GoodReady, ClosedAccounts, AllBelong, Clocked;
    ExpireOpens(cfg, w, now, id);
    ExpireDistinct(cfg, w.g.open, now);
    var open, tagged := Expire(cfg, w.g.open, now), Tagged(cfg, w.g, issue, now);
    if issue.resolved {
      var at := Find(open, tagged.incidentID);
      if at.Some? {
        SameIDs(open, at.value, Enqueue(cfg, open[at.value], tagged, now));
      }
    } else {
      var at := Choose(open, SubjectsOf(tagged), IsHost(tagged), |open|);
      if at.Some? {
        SameIDs(open, at.value, Join(cfg, open[at.value], tagged, now));
        assert open[at.value] in open;
      } else {
        OneMoreOpen(open, Join(cfg, NewIncident(w.g.nextID + 1, now), tagged, now));
      }
    }
  }

  lemma SummaryOpens(w: World, id: int, summary: string, other: int)
    requires DistinctIDs(w.g.open)
    ensures IsOpen(SetSummary(w.g, id, summary).open, other) <==> IsOpen(w.g.open, other)
  {
    var at := Find(w.g.open, id);
    if at.Some? && summary != "" {
      SameIDs(w.g.open, at.value, w.g.open[at.value].(summary := summary));
    }
  }

  lemma {:induction false} InUseIsOpen(cfg: Config, steps: seq<Step>, id: int)
    requires Legal(cfg, steps) && cfg.enabled
    ensures InUse(cfg, steps, id) <==> IsOpen(Run(cfg, steps).g.open, id)
    decreases |steps|
  {
    if steps != [] {
      hide Inv, Add, Over, FlushOrder, Take, SetSummary, IsOpen;
      var n := |steps| - 1;
      var w := Run(cfg, steps[..n]);
      InUseIsOpen(cfg, steps[..n], id);
      RunKeeps(cfg, steps[..n]);
      InvDistinct(cfg, w);
      match steps[n]
      case AddStep(issue, now) => AddOpens(cfg, w, issue, now, id);
      case TakeStep(_, order, _) => TakeSameIDs(w.g, order);
      case SummaryStep(other, summary, _) => SummaryOpens(w, other, summary, id);
      case RestartStep(_) => NoneOpen(id);
    } else {
      NoneOpen(id);
    }
  }

  lemma InvDistinct(cfg: Config, w: World)
    requires Inv(cfg, w)
    ensures DistinctIDs(w.g.open)
  {
  }

  lemma NoneOpen(id: int)
    ensures !IsOpen([], id)
  {
  }

  /** Less than a window after a firing alert its incident is in use, unless nodux was restarted. */
  lemma {:induction false} RecentIsInUse(cfg: Config, steps: seq<Step>, i: nat, id: int, now: Time)
    requires Legal(cfg, steps) && cfg.enabled && i < |steps| && Run(cfg, steps).clock <= now
    requires Legal(cfg, steps[..i + 1]) && Opens(cfg, steps[..i + 1], id) && now - steps[i].now < cfg.window
    requires forall j :: i < j < |steps| ==> !steps[j].RestartStep?
    ensures InUse(cfg, steps, id) && !Over(cfg, Run(cfg, steps), id, now)
    decreases |steps|
  {
    hide Inv, Add, FlushOrder, Take, SetSummary, IDFor, Tagged, Sent;
    var n := |steps| - 1;
    if i == n {
      assert steps[..i + 1] == steps;
    } else {
      assert steps[..n][..i + 1] == steps[..i + 1];
      RecentIsInUse(cfg, steps[..n], i, id, steps[n].now);
    }
    LastIsLater(cfg, steps, i, id);
  }

  lemma LastAfter(cfg: Config, w: World, s: Step, id: int)
    requires Allowed(cfg, w, s)
    ensures var w', last := Apply(cfg, w, s), LastFiring(FiledIn(id, w.filed));
      && w'.clock == s.now
      && (s.AddStep? ==> w'.filed != [])
      && LastFiring(FiledIn(id, w'.filed)) ==
           if s.AddStep? && !s.issue.resolved && w'.filed[|w'.filed| - 1].id == id then Some(s.now) else last
  {
    hide Add, Take, SetSummary, IDFor, Out, FlushOrder;
    if s.AddStep? {
      var f := Apply(cfg, w, s).filed[|w.filed|];
      FiledInAppend(id, w.filed, f);
      SubjectsAppend(FiledIn(id, w.filed), f);
      assert FiledIn(id, w.filed) + [] == FiledIn(id, w.filed);
    }
  }

  lemma {:induction false} LastIsLater(cfg: Config, steps: seq<Step>, i: nat, id: int)
    requires Legal(cfg, steps) && cfg.enabled && i < |steps|
    requires Legal(cfg, steps[..i + 1]) && Opens(cfg, steps[..i + 1], id)
    ensures var last := LastFiring(FiledIn(id, Run(cfg, steps).filed));
      last.Some? && steps[i].now <= last.value <= Run(cfg, steps).clock
    decreases |steps|
  {
    hide Apply, FlushOrder, FiledIn, LastFiring;
    var n := |steps| - 1;
    LastAfter(cfg, Run(cfg, steps[..n]), steps[n], id);
    if i == n {
      assert steps[..i + 1] == steps;
    } else {
      assert steps[..n][..i + 1] == steps[..i + 1];
      LastIsLater(cfg, steps[..n], i, id);
    }
  }

  // ---- Joining ----

  /** The incident is in use, isn't over now, and the issue is related to a firing alert of it. */
  ghost predicate CanJoin(cfg: Config, steps: seq<Step>, issue: Issue, now: Time, id: int)
    requires Legal(cfg, steps)
  {
    && InUse(cfg, steps, id) && !Over(cfg, Run(cfg, steps), id, now)
    && Linked(issue, FiledIn(id, Run(cfg, steps).filed))
  }

  lemma MatchesIsLinked(cfg: Config, w: World, inc: Incident, issue: Issue)
    requires Accounts(cfg, w.filed, w.emitted, inc)
    ensures Matches(inc, SubjectsOf(issue), IsHost(issue)) <==> Linked(issue, FiledIn(inc.id, w.filed))
  {
    hide SubjectsOf, IsHost, Linked, Sent;
    LinkedIs(issue, FiledIn(inc.id, w.filed));
    assert inc.subjects * SubjectsOf(issue) == SubjectsOf(issue) * inc.subjects;
  }

  lemma CanJoinIs(cfg: Config, steps: seq<Step>, issue: Issue, now: Time, id: int)
    requires Legal(cfg, steps) && cfg.enabled
    ensures CanJoin(cfg, steps, issue, now, id) <==>
      exists inc :: inc in Expire(cfg, Run(cfg, steps).g.open, now) && inc.id == id && Matches(inc, SubjectsOf(issue), IsHost(issue))
  {
    hide Run, Linked, Over, Matches, Accounts, InUse, SubjectsOf, IsHost;
    var w := Run(cfg, steps);
    var kept := Expire(cfg, w.g.open, now);
    RunKeeps(cfg, steps);
    InUseIsOpen(cfg, steps, id);
    ExpireOpens(cfg, w, now, id);
    forall inc | inc in kept && inc.id == id
      ensures Matches(inc, SubjectsOf(issue), IsHost(issue)) <==> Linked(issue, FiledIn(id, w.filed))
    {
      MatchesIsLinked(cfg, w, inc, issue);
    }
    if CanJoin(cfg, steps, issue, now, id) {
      var inc :| inc in kept && inc.id == id;
    }
  }

  /** The number a firing alert is filed under. */
  ghost function NumberOf(cfg: Config, steps: seq<Step>, issue: Issue, now: Time): int
    requires Legal(cfg, steps) && Run(cfg, steps).clock <= now
  {
    var filed := Apply(cfg, Run(cfg, steps), AddStep(issue, now)).filed;
    filed[|filed| - 1].id
  }

  /**
   * A firing alert joins an incident whenever it can, and then of those it can join one whose last firing alert is the
   * latest. If it can join none it gets a number that was never used.
   */
  lemma JoinsTheMostRecent(cfg: Config, steps: seq<Step>, issue: Issue, now: Time)
    requires Legal(cfg, steps) && Run(cfg, steps).clock <= now && cfg.enabled && !issue.resolved
    ensures var w, id := Run(cfg, steps), NumberOf(cfg, steps, issue, now);
      && ((exists other :: CanJoin(cfg, steps, issue, now, other)) ==> CanJoin(cfg, steps, issue, now, id))
      && (forall other :: CanJoin(cfg, steps, issue, now, other) ==>
            var last, others := LastFiring(FiledIn(id, w.filed)), LastFiring(FiledIn(other, w.filed));
            last.Some? && others.Some? && others.value <= last.value)
      && (!CanJoin(cfg, steps, issue, now, id) ==> forall f :: f in w.filed ==> f.id < id)
  {
    hide Run, CanJoin, Matches, Accounts, SubjectsOf, IsHost, Add;
    RunKeeps(cfg, steps);
    var w, id := Run(cfg, steps), NumberOf(cfg, steps, issue, now);
    var open := Expire(cfg, w.g.open, now);
    var at := Choose(open, SubjectsOf(issue), IsHost(issue), |open|);
    CanJoinIs(cfg, steps, issue, now, id);
    if at.Some? {
      assert open[at.value] in open && open[at.value].id == id;
      LastOf(cfg, w, open[at.value]);
    }
    forall other | CanJoin(cfg, steps, issue, now, other)
      ensures at.Some? && LastFiring(FiledIn(other, w.filed)).Some?
      ensures LastFiring(FiledIn(other, w.filed)).value <= open[at.value].last
    {
      CanJoinIs(cfg, steps, issue, now, other);
      var inc :| inc in open && inc.id == other && Matches(inc, SubjectsOf(issue), IsHost(issue));
      var k :| 0 <= k < |open| && open[k] == inc;
      LastOf(cfg, w, inc);
    }
    NumbersAreNeverReused(cfg, steps, issue, now);
  }

  lemma LastOf(cfg: Config, w: World, inc: Incident)
    requires Accounts(cfg, w.filed, w.emitted, inc)
    ensures LastFiring(FiledIn(inc.id, w.filed)) == Some(inc.last)
  {
  }

  // ---- Resolutions ----

  /** The number of the last alert filed with the key, if that was a firing one, and otherwise 0. */
  function LastNumber(fs: seq<Filed>, key: string): int {
    if fs == [] || key == "" then 0
    else
      var f := fs[|fs| - 1];
      if f.issue.key != key then LastNumber(fs[..|fs| - 1], key) else if f.issue.resolved then 0 else f.id
  }

  lemma IndexAfter(cfg: Config, g: State, issue: Issue, now: Time)
    requires cfg.enabled
    ensures Add(cfg, g, issue, now).byKey ==
      if issue.key == "" then g.byKey
      else if issue.resolved then g.byKey - {issue.key}
      else g.byKey[issue.key := IDFor(cfg, g, issue, now)]
  {
    hide Expire, Choose, Find, SubjectsOf, IsHost, Join, Enqueue, IDFor;
  }

  lemma AddIndexes(cfg: Config, w: World, s: Step, key: string)
    requires s.AddStep? && cfg.enabled && Lookup(w.g.byKey, key) == LastNumber(w.filed, key)
    requires "" !in w.g.byKey
    ensures var w' := Apply(cfg, w, s); Lookup(w'.g.byKey, key) == LastNumber(w'.filed, key) && "" !in w'.g.byKey
  {
    hide Add, IDFor;
    var w' := Apply(cfg, w, s);
    IndexAfter(cfg, w.g, s.issue, s.now);
    assert w'.filed[..|w.filed|] == w.filed;
  }

  lemma {:induction false} KeysAreHistory(cfg: Config, steps: seq<Step>, key: string)
    requires Legal(cfg, steps) && cfg.enabled
    ensures Lookup(Run(cfg, steps).g.byKey, key) == LastNumber(Run(cfg, steps).filed, key)
    ensures "" !in Run(cfg, steps).g.byKey
    decreases |steps|
  {
    if steps != [] {
      hide Add, IDFor, Tagged, Take, Out, LastNumber, FlushOrder;
      var n := |steps| - 1;
      var w := Run(cfg, steps[..n]);
      KeysAreHistory(cfg, steps[..n], key);
      if steps[n].AddStep? {
        AddIndexes(cfg, w, steps[n], key);
      } else {
        KeysUntouched(cfg, w, steps[n]);
      }
    }
  }

  lemma KeysUntouched(cfg: Config, w: World, s: Step)
    requires Allowed(cfg, w, s) && !s.AddStep?
    ensures Apply(cfg, w, s).g.byKey == w.g.byKey && Apply(cfg, w, s).filed == w.filed
  {
    hide Find, AfterSend, Out;
  }

  /** A resolution goes with the last alert of its key, if that one was firing, and otherwise with no incident. */
  lemma ResolutionGoesWithItsAlert(cfg: Config, steps: seq<Step>, issue: Issue, now: Time)
    requires Legal(cfg, steps) && Run(cfg, steps).clock <= now && cfg.enabled && issue.resolved
    ensures NumberOf(cfg, steps, issue, now) == LastNumber(Run(cfg, steps).filed, issue.key)
  {
    hide Run, Add, Legal, LastNumber;
    KeysAreHistory(cfg, steps, issue.key);
  }

  // ---- Analyses ----

  /** The last analysis recorded for the incident while it was in use. */
  ghost function LastSummary(cfg: Config, steps: seq<Step>, id: int): string
    requires Legal(cfg, steps)
    decreases |steps|
  {
    if steps == [] then ""
    else
      var n := |steps| - 1;
      var s := steps[n];
      if s.SummaryStep? && s.id == id && s.summary != "" && InUse(cfg, steps[..n], id) then s.summary
      else LastSummary(cfg, steps[..n], id)
  }

  ghost predicate SummariesKept(cfg: Config, steps: seq<Step>, w: World)
    requires Legal(cfg, steps)
  {
    && (forall inc :: inc in w.g.open ==> inc.summary == LastSummary(cfg, steps, inc.id))
    && (forall id :: id > w.g.nextID ==> LastSummary(cfg, steps, id) == "")
  }

  /** Filing keeps what is recorded, and a new incident has nothing. */
  lemma AddSummaries(cfg: Config, g: State, issue: Issue, now: Time, inc: Incident)
    requires cfg.enabled && inc in Add(cfg, g, issue, now).open
    ensures (exists was :: was in g.open && was.id == inc.id && was.summary == inc.summary)
            || (inc.id == g.nextID + 1 && inc.summary == "")
    ensures Add(cfg, g, issue, now).nextID >= g.nextID
  {
    var open, tagged := Expire(cfg, g.open, now), Tagged(cfg, g, issue, now);
    if issue.resolved {
      var at := Find(open, tagged.incidentID);
      if at.Some? && inc == Enqueue(cfg, open[at.value], tagged, now) {
        assert open[at.value] in open;
      }
    } else {
      var at := Choose(open, SubjectsOf(tagged), IsHost(tagged), |open|);
      if at.Some? && inc == Join(cfg, open[at.value], tagged, now) {
        assert open[at.value] in open;
      }
    }
  }

  lemma TakeSummaries(g: State, order: seq<nat>, inc: Incident)
    requires inc in Take(g, order).open
    ensures exists was :: was in g.open && was.id == inc.id && was.summary == inc.summary
  {
    var i :| 0 <= i < |g.open| && Take(g, order).open[i] == inc;
    assert g.open[i] in g.open;
  }

  function Latest(id: int, summary: string, was: Incident): string {
    if was.id == id && summary != "" then summary else was.summary
  }

  lemma SetSummaries(g: State, id: int, summary: string, inc: Incident)
    requires DistinctIDs(g.open) && (forall was :: was in g.open ==> was.id != 0) && inc in SetSummary(g, id, summary).open
    ensures exists was :: was in g.open && was.id == inc.id && inc.summary == Latest(id, summary, was)
  {
    var i :| 0 <= i < |g.open| && SetSummary(g, id, summary).open[i] == inc;
    assert g.open[i] in g.open;
  }

  lemma LastSummaryAppend(cfg: Config, steps: seq<Step>, s: Step, id: int)
    requires Legal(cfg, steps) && Legal(cfg, steps + [s])
    ensures LastSummary(cfg, steps + [s], id) ==
      if s.SummaryStep? && s.id == id && s.summary != "" && InUse(cfg, steps, id) then s.summary
      else LastSummary(cfg, steps, id)
  {
    hide InUse;
    assert (steps + [s])[..|steps|] == steps;
  }

  lemma SummaryOf(cfg: Config, steps: seq<Step>, s: Step, inc: Incident)
    requires Legal(cfg, steps) && Legal(cfg, steps + [s]) && cfg.enabled && Allowed(cfg, Run(cfg, steps), s)
    requires SummariesKept(cfg, steps, Run(cfg, steps)) && inc in Apply(cfg, Run(cfg, steps), s).g.open
    ensures inc.summary == LastSummary(cfg, steps + [s], inc.id)
  {
    hide Run, Legal, Inv, Add, Take, SetSummary, IDFor, Tagged, Out, FlushOrder, InUse, IsOpen, LastSummary;
    var w := Run(cfg, steps);
    LastSummaryAppend(cfg, steps, s, inc.id);
    match s
    case AddStep(issue, now) => AddSummaries(cfg, w.g, issue, now, inc);
    case TakeStep(_, order, _) => TakeSummaries(w.g, order, inc);
    case SummaryStep(id, summary, _) =>
      RunKeeps(cfg, steps);
      OpenInRange(cfg, w);
      SetSummaries(w.g, id, summary, inc);
      InUseIsOpen(cfg, steps, inc.id);
      IsOpenBy(w.g.open, inc.id);
    case RestartStep(_) =>
  }

  lemma NothingRecorded(cfg: Config, steps: seq<Step>, s: Step, id: int)
    requires Legal(cfg, steps) && Legal(cfg, steps + [s]) && cfg.enabled && Allowed(cfg, Run(cfg, steps), s)
    requires SummariesKept(cfg, steps, Run(cfg, steps)) && id > Apply(cfg, Run(cfg, steps), s).g.nextID
    ensures LastSummary(cfg, steps + [s], id) == ""
  {
    hide Run, Legal, Inv, Apply, FlushOrder, InUse, IsOpen, LastSummary;
    var w := Run(cfg, steps);
    RunKeeps(cfg, steps);
    OpenInRange(cfg, w);
    NumbersGrow(cfg, w, s);
    LastSummaryAppend(cfg, steps, s, id);
    InUseIsOpen(cfg, steps, id);
    if InUse(cfg, steps, id) {
      OpenNumber(w, id);
    }
  }

  lemma {:induction false} RunKeepsSummaries(cfg: Config, steps: seq<Step>)
    requires Legal(cfg, steps) && cfg.enabled
    ensures SummariesKept(cfg, steps, Run(cfg, steps))
    decreases |steps|
  {
    if steps != [] {
      hide Apply, LastSummary, FlushOrder;
      var n := |steps| - 1;
      RunKeepsSummaries(cfg, steps[..n]);
      assert steps[..n] + [steps[n]] == steps;
      forall inc | inc in Run(cfg, steps).g.open ensures inc.summary == LastSummary(cfg, steps, inc.id) {
        SummaryOf(cfg, steps[..n], steps[n], inc);
      }
      forall id | id > Run(cfg, steps).g.nextID ensures LastSummary(cfg, steps, id) == "" {
        NothingRecorded(cfg, steps[..n], steps[n], id);
      }
    }
  }

  lemma OpenInRange(cfg: Config, w: World)
    requires Inv(cfg, w)
    ensures DistinctIDs(w.g.open) && w.g.nextID >= 0 && forall inc :: inc in w.g.open ==> 1 <= inc.id <= w.g.nextID
  {
  }

  lemma OpenNumber(w: World, id: int)
    requires IsOpen(w.g.open, id) && forall inc :: inc in w.g.open ==> 1 <= inc.id <= w.g.nextID
    ensures id <= w.g.nextID
  {
  }

  lemma IsOpenBy(open: seq<Incident>, id: int)
    ensures (exists inc :: inc in open && inc.id == id) ==> IsOpen(open, id)
  {
  }

  lemma NumbersGrow(cfg: Config, w: World, s: Step)
    requires Allowed(cfg, w, s) && w.g.nextID >= 0
    ensures Apply(cfg, w, s).g.nextID >= w.g.nextID
  {
    hide Expire, Choose, Find, Out, AfterSend, FlushOrder;
  }

  lemma OutSummaries(cfg: Config, g: State, limit: Option<Time>, order: seq<nat>, i: nat)
    requires FlushOrder(g.open, limit, order) && i < |Out(g, order)| && DistinctIDs(g.open)
    requires forall b :: b in g.ready ==> GoodReady(cfg, g, b)
    ensures var b := Out(g, order)[i];
      && (IsOpen(g.open, b.incidentID) ==> exists inc :: inc in g.open && inc.id == b.incidentID && b.prevSummary == inc.summary)
      && (!IsOpen(g.open, b.incidentID) ==> b.prevSummary == "")
  {
    var r := |g.ready|;
    if i < r {
      assert g.ready[i] in g.ready;
    } else {
      assert g.open[order[i - r]] in g.open;
    }
  }

  /** What the i-th batch carries, going by the run up to the step it went out at. */
  ghost predicate CarriesTheAnalysis(cfg: Config, steps: seq<Step>, b: Batch)
    requires Legal(cfg, steps)
  {
    b.prevSummary == if InUse(cfg, steps, b.incidentID) then LastSummary(cfg, steps, b.incidentID) else ""
  }

  lemma CarriesAtStep(cfg: Config, steps: seq<Step>, s: Step, i: nat)
    requires Legal(cfg, steps) && cfg.enabled && s.TakeStep? && Allowed(cfg, Run(cfg, steps), s)
    requires i < |Out(Run(cfg, steps).g, s.order)|
    ensures CarriesTheAnalysis(cfg, steps, Out(Run(cfg, steps).g, s.order)[i])
  {
    hide Run, Legal, InUse, LastSummary, Accounts, ClosedAccounts, AllBelong, TruthfulAll, Clocked, GoodReady, Out;
    var w := Run(cfg, steps);
    RunKeeps(cfg, steps);
    RunKeepsSummaries(cfg, steps);
    OutSummaries(cfg, w.g, s.limit, s.order, i);
    InUseIsOpen(cfg, steps, Out(w.g, s.order)[i].incidentID);
  }

  /** A batch carries the analysis last recorded for its incident, if that was in use when it went out, and else none. */
  lemma {:induction false} BatchesCarryTheAnalysis(cfg: Config, steps: seq<Step>, i: nat)
    requires Legal(cfg, steps) && cfg.enabled && i < |Run(cfg, steps).emitted|
    ensures var k := WentOut(cfg, steps, i);
      Legal(cfg, steps[..k]) && CarriesTheAnalysis(cfg, steps[..k], Run(cfg, steps).emitted[i])
    decreases |steps|
  {
    hide Out, Take, Add, SetSummary, Load, FlushOrder, CarriesTheAnalysis;
    var n := |steps| - 1;
    var w := Run(cfg, steps[..n]);
    if i < |w.emitted| {
      BatchesCarryTheAnalysis(cfg, steps[..n], i);
      var k := WentOut(cfg, steps[..n], i);
      assert steps[..n][..k] == steps[..k];
      assert Run(cfg, steps).emitted[i] == w.emitted[i];
    } else {
      CarriesAtStep(cfg, steps[..n], steps[n], i - |w.emitted|);
    }
  }

  // ---- A resolution that keeps nothing open ----

  lemma NothingToJoin(g: State, alert: Issue, now: Time)
    requires g.open == [] && g.nextID == 1 && !alert.resolved
    ensures IDFor(AT_ONCE, g, alert, now) == 2
  {
    assert Expire(AT_ONCE, [], now) == [];
    assert Choose([], SubjectsOf(alert), IsHost(alert), 0) == None;
  }

  /**
   * A resolution that came when its incident had expired is still unsent, and the same problem comes up again: the
   * alert gets a new number.
   */
  lemma WaitingResolutionKeepsNothingOpen(alert: Issue)
    requires !alert.resolved && alert.key != ""
    ensures var before := LateResolution(alert)[..3];
      && Legal(AT_ONCE, before) && Run(AT_ONCE, before).clock == 5 * ONE_MINUTE
      && |Unsent(Run(AT_ONCE, before), 1)| == 1
      && NumberOf(AT_ONCE, before, alert, 5 * ONE_MINUTE) == 2
  {
    hide Add, Take, Out, Run, Legal, Tagged, FlushOrder, Inv, Unsent, IDFor;
    var s := LateResolution(alert);
    AlertGoesOut(alert);
    OneResolved(alert);
    RunOne(AT_ONCE, s[..2], s[2]);
    assert s[..2] + [s[2]] == s[..3];
    var w := Run(AT_ONCE, s[..3]);
    RunKeeps(AT_ONCE, s[..3]);
    NoneOpen(1);
    Books(AT_ONCE, w, 1);
    OneReady(w.g.ready, alert);
    NothingToJoin(w.g, alert, 5 * ONE_MINUTE);
  }

  lemma OneReady(ready: seq<Batch>, alert: Issue)
    requires |ready| == 1 && ready[0].incidentID == 1 && |ready[0].alerts| == 1
    ensures |Sent(1, ready)| == 1
  {
    assert ready[..0] == [];
  }
}

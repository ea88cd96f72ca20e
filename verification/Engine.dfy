/** The engine's shared state under its lock: open episodes, the silences they are checked against, and cooldowns. */
module EngineState {
  import opened Base
  import opened Issues
  import opened Keys
  import opened Tracker
  import opened TrackerTheorems
  import opened Silences
  import Cooldowns

  // ---- Silenced or not ----

  /** The store, if silences are enabled, as a value. */
  type View = Option<(Globs, Silences.Stored)>

  /** The project its label says, or else the one the last poll knew the container to be in. */
  function ProjectOf(c: Container, refs: map<string, Ref>): (p: string)
    ensures c.Project() != "" ==> p == c.Project()
    ensures c.Project() == "" ==> p == if c.name != "" && c.name in refs then refs[c.name].project else ""
  {
    if c.Project() == "" && c.name != "" && c.name in refs then refs[c.name].project else c.Project()
  }

  function SubjectOf(issue: Issue, refs: map<string, Ref>, oneOff: bool): Subject {
    Subject(issue.detector, issue.container.name, ProjectOf(issue.container, refs), issue.resource, oneOff)
  }

  predicate IsQuiet(view: View, refs: map<string, Ref>, oneOff: bool, now: Time, issue: Issue) {
    view.Some? && Answer(view.value.0, view.value.1, now, SubjectOf(issue, refs, oneOff))
  }

  /** For ongoing problems. */
  function QuietNow(view: View, refs: map<string, Ref>, now: Time): Issue -> bool {
    (issue: Issue) => IsQuiet(view, refs, false, now, issue)
  }

  /** A silence that hasn't ended selects the alert by its detector, container, project and resource. */
  ghost predicate SilencedBy(view: View, refs: map<string, Ref>, now: Time, issue: Issue, oneOff: bool, id: string)
    requires view.Some?
  {
    var (g, st) := view.value;
    && id in st.silences && now < st.silences[id].until
    && Selects(g, st.silences[id].matcher,
               Subject(issue.detector, issue.container.name, ProjectOf(issue.container, refs), issue.resource, oneOff))
  }

  /** A deploy window that hasn't ended is open for its container or its project. */
  ghost predicate InWindow(view: View, refs: map<string, Ref>, now: Time, issue: Issue, k: WindowKey)
    requires view.Some?
  {
    && k in view.value.1.windows && now < view.value.1.windows[k]
    && k.name != ""
    && k.name == match k.scope
                 case ContainerScope => issue.container.name
                 case ProjectScope => ProjectOf(issue.container, refs)
  }

  /** Deploy windows cover ongoing problems. */
  lemma OngoingIsNoOneOff(view: View, refs: map<string, Ref>, now: Time, issue: Issue)
    ensures QuietNow(view, refs, now)(issue) <==> IsQuiet(view, refs, false, now, issue)
  {
  }

  /** An alert is kept quiet exactly by a silence or, unless it is a one-off, by a deploy window. */
  lemma QuietIs(view: View, refs: map<string, Ref>, oneOff: bool, now: Time, issue: Issue)
    ensures IsQuiet(view, refs, oneOff, now, issue) <==>
      (view.Some? && (|| (exists id :: SilencedBy(view, refs, now, issue, oneOff, id))
                      || (!oneOff && exists k :: InWindow(view, refs, now, issue, k))))
  {
    hide ProjectOf, Matches, Selects;
    if view.Some? {
      var (g, st) := view.value;
      var s := SubjectOf(issue, refs, oneOff);
      var p := Prune(st, now);
      forall id | id in p.silences ensures Matches(g, p.silences[id].matcher, s) <==> SilencedBy(view, refs, now, issue, oneOff, id) {
        MatchesIs(g, p.silences[id].matcher, s);
      }
      if Covered(p.windows, s) {
        assert InWindow(view, refs, now, issue, WindowKey(ContainerScope, s.container))
               || InWindow(view, refs, now, issue, WindowKey(ProjectScope, s.project));
      }
      if exists id :: SilencedBy(view, refs, now, issue, oneOff, id) {
        var id :| SilencedBy(view, refs, now, issue, oneOff, id);
        assert id in p.silences;
      }
    }
  }

  /** Looking at the store may have pruned it. */
  ghost predicate Looked(before: View, after: View, now: Time) {
    after == before || (before.Some? && after == Some((before.value.0, Prune(before.value.1, now))))
  }

  /** Pruning is unobservable: every answer at that moment stays the same. */
  lemma LookingChangesNoAnswer(before: View, after: View, refs: map<string, Ref>, oneOff: bool, now: Time, issue: Issue)
    requires Looked(before, after, now)
    ensures IsQuiet(before, refs, oneOff, now, issue) == IsQuiet(after, refs, oneOff, now, issue)
  {
    if before.Some? {
      assert Prune(Prune(before.value.1, now), now) == Prune(before.value.1, now);
    }
  }

  lemma LookedTwice(a: View, b: View, c: View, now: Time)
    requires Looked(a, b, now) && Looked(b, c, now)
    ensures Looked(a, c, now)
  {
    if a.Some? {
      assert Prune(Prune(a.value.1, now), now) == Prune(a.value.1, now);
    }
  }

  /** What a one-off alert is held back under. */
  function CooldownKey(detector: string, name: string): string {
    detector + "/" + name
  }

  /** Detectors' names have no slash, so no two of them, and no two names, share a cooldown. */
  lemma CooldownsDontMix(detector: string, name: string, otherDetector: string, otherName: string)
    requires Slashless(detector) && Slashless(otherDetector)
    ensures CooldownKey(detector, name) == CooldownKey(otherDetector, otherName) <==> detector == otherDetector && name == otherName
  {
    CutJoined(detector, name);
    CutJoined(otherDetector, otherName);
  }

  /** An episode as the state file keeps it. */
  datatype SavedEpisode = SavedEpisode(key: string, since: Time, containerID: string, issue: Issue, held: bool)

  function Saved(key: string, a: Episode): SavedEpisode {
    SavedEpisode(key, a.since, a.containerID, a.issue.(logs := []), !a.notified)
  }

  function Loaded(ep: SavedEpisode): Episode {
    Episode(ep.issue.(key := ep.key), ep.since, ep.containerID, !ep.held)
  }

  lemma NextOf(order: seq<string>, done: set<string>, key: string)
    requires Enumerates(order, done) && key !in done
    ensures Enumerates(order + [key], done + {key}) && key !in order
  {
  }

  lemma NothingClosed(active: Active, now: Time)
    ensures Run(active, CloseOps([], now)) == (active, []) && Enumerates([], {})
  {
  }

  lemma LookedOnce(view: View, now: Time)
    ensures Looked(view, view, now)
  {
  }

  lemma AllReleased(active: Active, order: seq<string>, quiet: Issue -> bool, refs: map<string, Ref>, now: Time)
    requires Enumerates(order, active.Keys)
    ensures Run(active, ReleaseOps(order, quiet, active, refs, now)).0 == ReleasedAll(active, order, quiet)
  {
    hide Run;
    ReleaseOpsDo(active, order, quiet, refs, now);
  }

  lemma NothingReleased(active: Active, quiet: Issue -> bool, refs: map<string, Ref>, now: Time)
    ensures Run(active, ReleaseOps([], quiet, active, refs, now)).1 == [] && ReleasedAll(active, [], quiet) == active
    ensures Enumerates([], {})
  {
  }

  /** The open episodes of a container. */
  function KeysOf(active: Active, id: string): set<string> {
    set k | k in active && active[k].containerID == id
  }

  function WithoutContainer(active: Active, id: string): Active {
    map k | k in active && active[k].containerID != id :: active[k]
  }

  lemma InTheMap(active: Active, id: string)
    ensures KeysOf(active, id) <= active.Keys
  {
  }

  lemma WhatIsLeft(active: Active, order: seq<string>, id: string, now: Time)
    requires Enumerates(order, KeysOf(active, id))
    ensures Run(active, RemoveOps(order, now)).0 == WithoutContainer(active, id)
  {
    hide Run;
    RemoveOpsKeys(active, order, now);
    assert (set k | k in order) == KeysOf(active, id);
  }

  lemma NothingRemoved(active: Active, now: Time)
    ensures Run(active, RemoveOps([], now)) == (active, []) && Enumerates([], {})
  {
  }

  class Engine {
    const cooldown: Time
    const silences: Store?
    var active: Active
    var containers: map<string, Ref>
    var lastAlert: map<string, Time>

    constructor (silences: Store?, cooldown: Time)
      ensures this.silences == silences && this.cooldown == cooldown
      ensures active == map[] && containers == map[] && lastAlert == map[]
    {
      this.silences, this.cooldown := silences, cooldown;
      active, containers, lastAlert := map[], map[], map[];
    }

    function View(): View
      reads this, silences
    {
      if silences == null then None else Some((silences.globs, silences.State()))
    }

    /** Asks the store about an alert, under the project the last poll knew its container to be in. */
    method SilencedLocked(issue: Issue, oneOff: bool, now: Time) returns (ok: bool)
      modifies silences
      ensures ok == IsQuiet(old(View()), containers, oneOff, now, issue)
      ensures Looked(old(View()), View(), now)
    {
      if silences == null {
        return false;
      }
      ok := silences.Silenced(SubjectOf(issue, containers, oneOff), now);
    }

    method TrackLocked(key: string, issue: Option<Issue>, current: Option<Container>, now: Time) returns (out: Option<Issue>)
      modifies this`active, silences
      ensures var quiet := issue.Some? && IsQuiet(old(View()), containers, false, now, issue.value);
        (active, out) == Track(old(active), key, issue, current, quiet, now)
      ensures Looked(old(View()), View(), now)
    {
      if issue.Some? && key !in active {
        var silenced := SilencedLocked(issue.value, false, now);
        var stored := issue.value.(key := key, silenced := false);
        active := active[key := Episode(stored, now, issue.value.container.id, !silenced)];
        return Some(issue.value.(key := key, silenced := silenced));
      }
      if issue.Some? && SeverityRank(issue.value.severity) > SeverityRank(active[key].issue.severity) {
        var silenced := SilencedLocked(issue.value, false, now);
        var a := active[key].(issue := issue.value.(key := key, silenced := false));
        if !silenced {
          a := a.(notified := true);
        }
        active := active[key := a];
        return Some(issue.value.(key := key, silenced := silenced));
      }
      if issue.None? && key in active {
        var a := active[key];
        active := active - {key};
        var r := Resolution(a, "resolved", now);
        if current.Some? {
          r := r.(container := current.value);
        }
        return Some(r);
      }
      out := None;
    }

    method TrackAt(key: string, issue: Option<Issue>, current: Option<Container>, observedAt: Option<Time>, now: Time)
      returns (out: Option<Issue>)
      modifies this`active, silences
      ensures var quiet := issue.Some? && IsQuiet(old(View()), containers, false, now, issue.value);
        && active == Apply(old(active), Observe(key, issue, current, observedAt, quiet, now)).0
        && AsList(out) == Apply(old(active), Observe(key, issue, current, observedAt, quiet, now)).1
      ensures Looked(old(View()), View(), now)
    {
      if key in active && issue.None? && observedAt.Some? && active[key].since > observedAt.value {
        return None;
      }
      out := TrackLocked(key, issue, current, now);
    }

    /** A detector's whole report, observed problem by problem, and then the keys it doesn't name. */
    method TrackSet(name: string, issues: seq<Issue>, id: Issue -> string, now: Time)
      returns (out: seq<Issue>, ghost order: seq<string>)
      modifies this`active, silences
      ensures var quiet := QuietNow(old(View()), containers, now);
        && StaleKeys(Run(old(active), TrackOps(name + "/", issues, id, quiet, now)).0, name + "/",
                     Reported(name + "/", issues, id), order)
        && active == Reconciled(old(active), name + "/", issues, id, quiet, order, now).0
        && out == Reconciled(old(active), name + "/", issues, id, quiet, order, now).1
      ensures Looked(old(View()), View(), now)
    {
      var reported: set<string>;
      out, reported := TrackEach(name + "/", issues, id, now);
      label tracked:
      var closed;
      closed, order := CloseEach((set k | k in active && HasPrefix(k, name + "/") && k !in reported), now);
      LookedTwice(old(View()), old@tracked(View()), View(), now);
      out := out + closed;
      RunConcat(old(active), TrackOps(name + "/", issues, id, QuietNow(old(View()), containers, now), now), CloseOps(order, now));
    }

    /** Resolves the episodes of the keys, in whatever order the map yields them. */
    method CloseEach(keys: set<string>, now: Time) returns (out: seq<Issue>, ghost order: seq<string>)
      requires keys <= active.Keys
      modifies this`active, silences
      ensures Enumerates(order, keys)
      ensures active == Run(old(active), CloseOps(order, now)).0 && out == Run(old(active), CloseOps(order, now)).1
      ensures Looked(old(View()), View(), now)
    {
      out, order := [], [];
      var rest := keys;
      ghost var base, done := active, {};
      NothingClosed(base, now);
      while rest != {}
        invariant Looked(old(View()), View(), now)
        invariant rest <= keys && done == keys - rest && Enumerates(order, done)
        invariant active == Run(base, CloseOps(order, now)).0 && out == Run(base, CloseOps(order, now)).1
        decreases |rest|
      {
        hide Run, CloseOps, IsQuiet, Looked, Enumerates;
        var key :| key in rest;
        rest := rest - {key};
        NextOf(order, done, key);
        label before:
        var closed := CloseKey(key, now, base, order);
        LookedTwice(old(View()), old@before(View()), View(), now);
        out := out + [closed];
        order, done := order + [key], done + {key};
      }
    }

    method CloseKey(key: string, now: Time, ghost base: Active, ghost order: seq<string>) returns (closed: Issue)
      requires key in base && key !in order && active == Run(base, CloseOps(order, now)).0
      modifies this`active, silences
      ensures active == Run(base, CloseOps(order + [key], now)).0
      ensures Run(base, CloseOps(order + [key], now)).1 == Run(base, CloseOps(order, now)).1 + [closed]
      ensures Looked(old(View()), View(), now)
    {
      hide Run, Looked, IsQuiet;
      CloseOpsKeys(base, order, now);
      CloseOpsKeys(base, order + [key], now);
      CloseLast(base, order, key, now);
      var out := TrackLocked(key, None, None, now);
      closed := out.value;
    }

    method TrackEach(prefix: string, issues: seq<Issue>, id: Issue -> string, now: Time)
      returns (out: seq<Issue>, reported: set<string>)
      modifies this`active, silences
      ensures var ops := TrackOps(prefix, issues, id, QuietNow(old(View()), containers, now), now);
        active == Run(old(active), ops).0 && out == Run(old(active), ops).1
      ensures reported == Reported(prefix, issues, id)
      ensures Looked(old(View()), View(), now)
    {
      ghost var quiet := QuietNow(View(), containers, now);
      out, reported := [], {};
      for i := 0 to |issues|
        invariant Looked(old(View()), View(), now)
        invariant active == Run(old(active), TrackOps(prefix, issues[..i], id, quiet, now)).0
        invariant out == Run(old(active), TrackOps(prefix, issues[..i], id, quiet, now)).1
        invariant reported == Reported(prefix, issues[..i], id)
      {
        hide Run, Looked, Track;
        var key := prefix + id(issues[i]);
        assert issues[..i + 1] == issues[..i] + [issues[i]];
        TrackOneMore(old(active), prefix, issues[..i], issues[i], id, quiet, now);
        ReportedLast(prefix, issues[..i], issues[i], id);
        LookingChangesNoAnswer(old(View()), View(), containers, false, now, issues[i]);
        reported := reported + {key};
        label before:
        var o := TrackLocked(key, Some(issues[i]), None, now);
        LookedTwice(old(View()), old@before(View()), View(), now);
        if o.Some? {
          out := out + [o.value];
        }
      }
      assert issues[..|issues|] == issues;
    }

    /** A container is gone, and its episodes with it. */
    method ResolveContainer(id: string, now: Time) returns (out: seq<Issue>, ghost order: seq<string>)
      modifies this`active
      ensures Enumerates(order, KeysOf(old(active), id))
      ensures active == Run(old(active), RemoveOps(order, now)).0 && out == Run(old(active), RemoveOps(order, now)).1
      ensures active == WithoutContainer(old(active), id)
    {
      out, order := [], [];
      var rest := KeysOf(active, id);
      ghost var base, done := active, {};
      NothingRemoved(base, now);
      while rest != {}
        invariant rest <= KeysOf(base, id) && done == KeysOf(base, id) - rest && Enumerates(order, done)
        invariant active == Run(base, RemoveOps(order, now)).0 && out == Run(base, RemoveOps(order, now)).1
        decreases |rest|
      {
        hide Run, RemoveOps, Enumerates, KeysOf;
        InTheMap(base, id);
        var key :| key in rest;
        rest := rest - {key};
        NextOf(order, done, key);
        var removed := RemoveKey(key, now, base, order);
        out := out + [removed];
        order, done := order + [key], done + {key};
      }
      WhatIsLeft(base, order, id, now);
    }

    method RemoveKey(key: string, now: Time, ghost base: Active, ghost order: seq<string>) returns (removed: Issue)
      requires key in base && key !in order && active == Run(base, RemoveOps(order, now)).0
      modifies this`active
      ensures active == Run(base, RemoveOps(order + [key], now)).0
      ensures Run(base, RemoveOps(order + [key], now)).1 == Run(base, RemoveOps(order, now)).1 + [removed]
    {
      hide Run, Resolution;
      RemoveOpsKeys(base, order, now);
      RemoveOpsKeys(base, order + [key], now);
      RemoveLast(base, order, key, now);
      removed := Resolution(active[key], "container removed", now);
      active := active - {key};
    }

    /** One episode whose alert may have been held back. */
    method ReleaseOne(key: string, now: Time) returns (out: Option<Issue>)
      requires silences != null && key in active
      modifies this`active, silences
      ensures var quiet := IsQuiet(old(View()), containers, false, now, old(active)[key].issue);
        && active == Apply(old(active), Release(key, quiet, containers, now)).0
        && AsList(out) == Apply(old(active), Release(key, quiet, containers, now)).1
      ensures Looked(old(View()), View(), now)
    {
      var a := active[key];
      if a.notified {
        return None;
      }
      var silenced := SilencedLocked(a.issue, false, now);
      if silenced {
        return None;
      }
      active := active[key := a.(notified := true)];
      out := Some(Released(a, containers, now));
    }

    /** Looks at every open episode again, and announces those that are still unannounced and not quiet any more. */
    method FlushDeferred(now: Time) returns (out: seq<Issue>, ghost order: seq<string>)
      modifies this`active, silences
      ensures silences == null ==> active == old(active) && out == []
      ensures silences != null ==>
        var ops := ReleaseOps(order, QuietNow(old(View()), containers, now), old(active), containers, now);
        && Enumerates(order, old(active).Keys)
        && active == Run(old(active), ops).0 && out == Run(old(active), ops).1
      ensures Looked(old(View()), View(), now)
    {
      if silences == null {
        return [], [];
      }
      out, order := ReleaseEach(active.Keys, now, active);
    }

    method ReleaseEach(keys: set<string>, now: Time, ghost base: Active) returns (out: seq<Issue>, ghost order: seq<string>)
      requires silences != null && active == base && keys == base.Keys
      modifies this`active, silences
      ensures var ops := ReleaseOps(order, QuietNow(old(View()), containers, now), base, containers, now);
        Enumerates(order, keys) && active == Run(base, ops).0 && out == Run(base, ops).1
      ensures Looked(old(View()), View(), now)
    {
      hide Run, ReleaseOps, ReleasedAll, IsQuiet, Looked, Enumerates;
      ghost var quiet, done := QuietNow(View(), containers, now), {};
      var rest := keys;
      out, order := [], [];
      NothingReleased(base, quiet, containers, now);
      LookedOnce(View(), now);
      while rest != {}
        invariant Looked(old(View()), View(), now)
        invariant rest <= keys && done == keys - rest && Enumerates(order, done)
        invariant active == ReleasedAll(base, order, quiet)
        invariant out == Run(base, ReleaseOps(order, quiet, base, containers, now)).1
        decreases |rest|
      {
        var key :| key in rest;
        rest := rest - {key};
        NextOf(order, done, key);
        label before:
        var o := ReleaseKey(key, now, base, order, done, old(View()));
        LookedTwice(old(View()), old@before(View()), View(), now);
        out := out + AsList(o);
        order, done := order + [key], done + {key};
      }
      assert done == keys;
      AllReleased(base, order, quiet, containers, now);
    }

    method ReleaseKey(key: string, now: Time, ghost base: Active, ghost order: seq<string>, ghost done: set<string>,
                      ghost view: View) returns (out: Option<Issue>)
      requires silences != null && key in base && Looked(view, View(), now)
      requires key !in done && Enumerates(order, done) && done <= base.Keys
      requires active == ReleasedAll(base, order, QuietNow(view, containers, now))
      modifies this`active, silences
      ensures active == ReleasedAll(base, order + [key], QuietNow(view, containers, now))
      ensures Run(base, ReleaseOps(order + [key], QuietNow(view, containers, now), base, containers, now)).1
           == Run(base, ReleaseOps(order, QuietNow(view, containers, now), base, containers, now)).1 + AsList(out)
      ensures Looked(old(View()), View(), now)
    {
      hide Run, ReleaseOps, Looked, IsQuiet;
      ghost var quiet := QuietNow(view, containers, now);
      ReleaseOpsDo(base, order, quiet, containers, now);
      ReleaseLast(base, order, key, quiet, containers, now);
      LookingChangesNoAnswer(view, View(), containers, false, now, active[key].issue);
      out := ReleaseOne(key, now);
    }

    /** The open episodes, for the state file. */
    method SaveEpisodes() returns (eps: seq<SavedEpisode>)
      ensures forall ep :: ep in eps <==> ep.key in active && ep == Saved(ep.key, active[ep.key])
      ensures forall i, j :: 0 <= i < j < |eps| ==> eps[i].key != eps[j].key
    {
      eps := [];
      var rest := active.Keys;
      while rest != {}
        invariant rest <= active.Keys
        invariant forall ep :: ep in eps <==> ep.key in active && ep.key !in rest && ep == Saved(ep.key, active[ep.key])
        invariant forall i, j :: 0 <= i < j < |eps| ==> eps[i].key != eps[j].key
        decreases |rest|
      {
        var key :| key in rest;
        forall i | 0 <= i < |eps| ensures eps[i].key != key {
          assert eps[i] in eps;
        }
        eps := eps + [Saved(key, active[key])];
        rest := rest - {key};
      }
    }

    /** Loads saved episodes into a new engine: what a restart does to the tracker. */
    method RestoreEpisodes(eps: seq<SavedEpisode>, known: set<string>, excluded: set<string>, ghost was: Active)
      requires active == map[]
      requires forall ep :: ep in eps <==> ep.key in was && ep == Saved(ep.key, was[ep.key])
      modifies this`active
      ensures active == Apply(was, Restart(known, excluded)).0
    {
      hide Cut;
      for i := 0 to |eps|
        invariant forall k :: k in active <==> k in was && Saved(k, was[k]) in eps[..i] && Kept(k, was[k], known, excluded)
        invariant forall k :: k in active ==> k in was && active[k] == Restored(k, was[k])
      {
        var ep := eps[i];
        assert ep in eps && eps[..i + 1] == eps[..i] + [ep];
        assert forall k :: k in was && Saved(k, was[k]) == ep ==> k == ep.key;
        if Cut(ep.key) !in known {
          continue;
        }
        if ep.issue.container.name in excluded && ep.issue.container.name != "" {
          continue;
        }
        active := active[ep.key := Loaded(ep)];
      }
      assert eps[..|eps|] == eps;
      assert forall k :: k in was ==> Saved(k, was[k]) in eps;
    }

    /** Forgets what has cooled down, then says whether this key has passed since, and if not lets it pass. */
    method CoolingDown(detector: string, name: string, now: Time) returns (suppressed: bool)
      modifies this`lastAlert
      ensures (lastAlert, suppressed) == Cooldowns.Cool(cooldown, old(lastAlert), CooldownKey(detector, name), now)
    {
      var rest := lastAlert.Keys;
      while rest != {}
        invariant rest <= old(lastAlert).Keys
        invariant lastAlert == map k | k in old(lastAlert) && (k in rest || now - old(lastAlert)[k] < cooldown) :: old(lastAlert)[k]
        decreases |rest|
      {
        var key :| key in rest;
        rest := rest - {key};
        if now - lastAlert[key] >= cooldown {
          lastAlert := lastAlert - {key};
        }
      }
      var key := CooldownKey(detector, name);
      assert lastAlert == map k | k in old(lastAlert) && now - old(lastAlert)[k] < cooldown :: old(lastAlert)[k];
      if key in lastAlert {
        return true;
      }
      if cooldown > 0 {
        lastAlert := lastAlert[key := now];
      }
      suppressed := false;
    }
  }
}

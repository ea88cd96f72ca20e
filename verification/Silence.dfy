/** Silences and deploy windows: the store's state as a value, and what each operation does to it. */
module Silences {
  import opened Base

  /** path.Match, which is not part of this model: whether a pattern matches, and whether it is well-formed. */
  datatype Globs = Globs(matches: (string, string) -> bool, compiles: string -> bool) {
    /** A lone star needs no matching: every string passes, even one with slashes or none at all. */
    predicate Glob(pattern: string, s: string) {
      pattern == "*" || (s != "" && matches(pattern, s))
    }
  }

  datatype Matcher = Matcher(target: string, detector: string, container: string, project: string, resource: string)

  datatype Subject = Subject(detector: string, container: string, project: string, resource: string, oneOff: bool)

  datatype Silence = Silence(id: string, matcher: Matcher, comment: string, created: Time, until: Time)

  datatype Scope = ContainerScope | ProjectScope

  datatype WindowKey = WindowKey(scope: Scope, name: string)

  datatype Stored = Stored(silences: map<string, Silence>, windows: map<WindowKey, Time>)

  const EMPTY := Stored(map[], map[])

  predicate Validates(g: Globs, m: Matcher) {
    && (m.target != "" || m.detector != "" || m.container != "" || m.project != "" || m.resource != "")
    && (m.target != "" ==> g.compiles(m.target))
    && (m.detector != "" ==> g.compiles(m.detector))
    && (m.container != "" ==> g.compiles(m.container))
    && (m.project != "" ==> g.compiles(m.project))
    && (m.resource != "" ==> g.compiles(m.resource))
  }

  predicate Matches(g: Globs, m: Matcher, s: Subject) {
    && Validates(g, m)
    && (m.target == "" || g.Glob(m.target, s.container) || g.Glob(m.target, s.resource))
    && (m.detector == "" || g.Glob(m.detector, s.detector))
    && (m.container == "" || g.Glob(m.container, s.container))
    && (m.project == "" || g.Glob(m.project, s.project))
    && (m.resource == "" || g.Glob(m.resource, s.resource))
  }

  // ---- Operations ----

  function Prune(st: Stored, now: Time): Stored {
    Stored(map id | id in st.silences && now < st.silences[id].until :: st.silences[id],
           map k | k in st.windows && now < st.windows[k] :: st.windows[k])
  }

  predicate Covered(windows: map<WindowKey, Time>, s: Subject) {
    !s.oneOff && ((s.container != "" && WindowKey(ContainerScope, s.container) in windows)
                  || (s.project != "" && WindowKey(ProjectScope, s.project) in windows))
  }

  /** The answer for s: a standing silence selects it, or an open window covers it. */
  predicate Answer(g: Globs, st: Stored, now: Time, s: Subject) {
    var p := Prune(st, now);
    Covered(p.windows, s) || exists id :: id in p.silences && Matches(g, p.silences[id].matcher, s)
  }

  function WithSilence(g: Globs, st: Stored, s: Silence): Stored {
    if Validates(g, s.matcher) && s.created < s.until then st.(silences := st.silences[s.id := s]) else st
  }

  function Extend(windows: map<WindowKey, Time>, k: WindowKey, until: Time): map<WindowKey, Time> {
    if k.name != "" && (k !in windows || until > windows[k]) then windows[k := until] else windows
  }

  function WithDeploy(st: Stored, container: string, project: string, until: Time): Stored {
    st.(windows := Extend(Extend(st.windows, WindowKey(ContainerScope, container), until),
                          WindowKey(ProjectScope, project), until))
  }

  /** Loading saved silences and windows, in the order they are listed. */
  function LoadSilences(g: Globs, silences: map<string, Silence>, saved: seq<Silence>): map<string, Silence> {
    if saved == [] then silences
    else
      var n := |saved| - 1;
      var before := LoadSilences(g, silences, saved[..n]);
      if saved[n].id != "" && Validates(g, saved[n].matcher) then before[saved[n].id := saved[n]] else before
  }

  function LoadWindows(windows: map<WindowKey, Time>, saved: seq<(WindowKey, Time)>): map<WindowKey, Time> {
    if saved == [] then windows
    else
      var n := |saved| - 1;
      Extend(LoadWindows(windows, saved[..n]), saved[n].0, saved[n].1)
  }

  function Load(g: Globs, st: Stored, silences: seq<Silence>, windows: seq<(WindowKey, Time)>, now: Time): Stored {
    Prune(Stored(LoadSilences(g, st.silences, silences), LoadWindows(st.windows, windows)), now)
  }

  /** The lists hold what the state holds, each entry once, in some order. */
  ghost predicate Lists(silences: seq<Silence>, windows: seq<(WindowKey, Time)>, st: Stored) {
    && (forall s :: s in silences <==> s.id in st.silences && st.silences[s.id] == s)
    && (forall w :: w in windows <==> w.0 in st.windows && st.windows[w.0] == w.1)
    && (forall i, j :: 0 <= i < j < |silences| ==> silences[i].id != silences[j].id)
    && (forall i, j :: 0 <= i < j < |windows| ==> windows[i].0 != windows[j].0)
  }

  // ---- Matchers ----

  datatype Field = TargetField | DetectorField | ContainerField | ProjectField | ResourceField

  function PatternOf(m: Matcher, f: Field): string {
    match f
    case TargetField => m.target
    case DetectorField => m.detector
    case ContainerField => m.container
    case ProjectField => m.project
    case ResourceField => m.resource
  }

  /** A target is about the container or the resource. */
  function ValuesOf(s: Subject, f: Field): set<string> {
    match f
    case TargetField => {s.container, s.resource}
    case DetectorField => {s.detector}
    case ContainerField => {s.container}
    case ProjectField => {s.project}
    case ResourceField => {s.resource}
  }

  /** Some field is given, and every given one is a pattern. */
  ghost predicate WellFormed(g: Globs, m: Matcher) {
    && (exists f :: PatternOf(m, f) != "")
    && forall f :: PatternOf(m, f) != "" ==> g.compiles(PatternOf(m, f))
  }

  /** A lone star passes everything, other patterns nothing empty. */
  ghost predicate SomePasses(g: Globs, pattern: string, values: set<string>) {
    pattern == "*" || exists v :: v in values && v != "" && g.matches(pattern, v)
  }

  /** Every given field has a value that passes. */
  ghost predicate Selects(g: Globs, m: Matcher, s: Subject) {
    WellFormed(g, m) && forall f :: PatternOf(m, f) != "" ==> SomePasses(g, PatternOf(m, f), ValuesOf(s, f))
  }

  lemma ValidatesIs(g: Globs, m: Matcher)
    ensures Validates(g, m) <==> WellFormed(g, m)
  {
    if Validates(g, m) {
      var fields := [TargetField, DetectorField, ContainerField, ProjectField, ResourceField];
      assert exists i :: 0 <= i < 5 && PatternOf(m, fields[i]) != "" by {
        assert PatternOf(m, fields[0]) == m.target && PatternOf(m, fields[1]) == m.detector;
        assert PatternOf(m, fields[2]) == m.container && PatternOf(m, fields[3]) == m.project;
        assert PatternOf(m, fields[4]) == m.resource;
      }
    }
    if WellFormed(g, m) {
      EachField(m, f => PatternOf(m, f) != "" ==> g.compiles(PatternOf(m, f)));
    }
  }

  lemma EachField(m: Matcher, p: Field -> bool)
    requires forall f :: p(f)
    ensures p(TargetField) && p(DetectorField) && p(ContainerField) && p(ProjectField) && p(ResourceField)
  {
  }

  /** What the matcher does is what it is meant to do. */
  lemma MatchesIs(g: Globs, m: Matcher, s: Subject)
    ensures Matches(g, m, s) <==> Selects(g, m, s)
  {
    ValidatesIs(g, m);
    OneValue(g, m.detector, s.detector);
    OneValue(g, m.container, s.container);
    OneValue(g, m.project, s.project);
    OneValue(g, m.resource, s.resource);
    TwoValues(g, m.target, s.container, s.resource);
    if Selects(g, m, s) {
      EachField(m, f => PatternOf(m, f) != "" ==> SomePasses(g, PatternOf(m, f), ValuesOf(s, f)));
    }
  }

  lemma OneValue(g: Globs, pattern: string, v: string)
    ensures SomePasses(g, pattern, {v}) <==> g.Glob(pattern, v)
  {
    if pattern != "*" && v != "" && g.matches(pattern, v) {
      assert v in {v};
    }
  }

  lemma TwoValues(g: Globs, pattern: string, a: string, b: string)
    ensures SomePasses(g, pattern, {a, b}) <==> g.Glob(pattern, a) || g.Glob(pattern, b)
  {
    if pattern != "*" && a != "" && g.matches(pattern, a) {
      assert a in {a, b};
    }
    if pattern != "*" && b != "" && g.matches(pattern, b) {
      assert b in {a, b};
    }
  }

  /** The empty matcher selects nothing, and a target "*" on its own selects everything. */
  lemma EmptyAndStar(g: Globs, s: Subject)
    requires g.compiles("*")
    ensures !Matches(g, Matcher("", "", "", "", ""), s) && Matches(g, Matcher("*", "", "", "", ""), s)
  {
  }

  // ---- The store ----

  class Store {
    const globs: Globs
    var silences: map<string, Silence>
    var windows: map<WindowKey, Time>

    function State(): Stored
      reads this
    {
      Stored(silences, windows)
    }

    constructor (globs: Globs)
      ensures this.globs == globs && State() == EMPTY
    {
      this.globs := globs;
      silences, windows := map[], map[];
    }

    /** A new silence; the random identifier is an input. */
    method Add(m: Matcher, d: Time, comment: string, id: string, now: Time) returns (s: Option<Silence>)
      modifies this
      ensures State() == WithSilence(globs, old(State()), Silence(id, m, comment, now, now + d))
      ensures s.Some? <==> WellFormed(globs, m) && d > 0
    {
      ValidatesIs(globs, m);
      if !Validates(globs, m) || d <= 0 {
        return None;
      }
      var made := Silence(id, m, comment, now, now + d);
      silences := silences[id := made];
      s := Some(made);
    }

    /** Drops the silence with this identifier, if there is one. */
    method Remove(id: string) returns (found: bool)
      modifies this
      ensures found <==> id in old(silences)
      ensures windows == old(windows) && silences == old(silences) - {id}
    {
      found := id in silences;
      silences := silences - {id};
    }

    method Deploy(container: string, project: string, until: Time)
      modifies this
      ensures State() == WithDeploy(old(State()), container, project, until)
    {
      var keys := [WindowKey(ContainerScope, container), WindowKey(ProjectScope, project)];
      for i := 0 to 2
        invariant silences == old(silences)
        invariant windows == if i == 0 then old(windows)
                             else if i == 1 then Extend(old(windows), keys[0], until)
                             else Extend(Extend(old(windows), keys[0], until), keys[1], until)
      {
        var k := keys[i];
        if k.name != "" && (k !in windows || until > windows[k]) {
          windows := windows[k := until];
        }
      }
    }

    method PruneNow(now: Time)
      modifies this
      ensures State() == Prune(old(State()), now)
    {
      PruneSilences(now);
      PruneWindows(now);
    }

    method PruneSilences(now: Time)
      modifies this`silences
      ensures silences == Prune(old(State()), now).silences
    {
      var ids := silences.Keys;
      while ids != {}
        invariant ids <= old(silences).Keys
        invariant silences == map id | id in old(silences) && (id in ids || now < old(silences)[id].until) :: old(silences)[id]
        decreases |ids|
      {
        var id :| id in ids;
        ids := ids - {id};
        if now >= silences[id].until {
          silences := silences - {id};
        }
      }
    }

    method PruneWindows(now: Time)
      modifies this`windows
      ensures windows == Prune(old(State()), now).windows
    {
      var keys := windows.Keys;
      while keys != {}
        invariant keys <= old(windows).Keys
        invariant windows == map k | k in old(windows) && (k in keys || now < old(windows)[k]) :: old(windows)[k]
        decreases |keys|
      {
        var k :| k in keys;
        keys := keys - {k};
        if now >= windows[k] {
          windows := windows - {k};
        }
      }
    }

    method Silenced(s: Subject, now: Time) returns (ok: bool)
      modifies this
      ensures ok == Answer(globs, old(State()), now, s) && State() == Prune(old(State()), now)
    {
      PruneNow(now);
      if s.container != "" && !s.oneOff && WindowKey(ContainerScope, s.container) in windows {
        return true;
      }
      if s.project != "" && !s.oneOff && WindowKey(ProjectScope, s.project) in windows {
        return true;
      }
      var ids := silences.Keys;
      while ids != {}
        invariant State() == Prune(old(State()), now) && ids <= silences.Keys
        invariant forall id :: id in silences && id !in ids ==> !Matches(globs, silences[id].matcher, s)
        decreases |ids|
      {
        var id :| id in ids;
        if Matches(globs, silences[id].matcher, s) {
          return true;
        }
        ids := ids - {id};
      }
      ok := false;
    }

    /** The active silences and windows. */
    method SaveState(now: Time) returns (savedSilences: seq<Silence>, savedWindows: seq<(WindowKey, Time)>)
      requires forall id :: id in silences ==> silences[id].id == id
      modifies this
      ensures State() == Prune(old(State()), now)
      ensures Lists(savedSilences, savedWindows, State())
    {
      PruneNow(now);
      savedSilences := ListSilences();
      savedWindows := ListWindows();
    }

    method ListSilences() returns (saved: seq<Silence>)
      requires forall id :: id in silences ==> silences[id].id == id
      ensures forall s :: s in saved <==> s.id in silences && silences[s.id] == s
      ensures forall i, j :: 0 <= i < j < |saved| ==> saved[i].id != saved[j].id
    {
      saved := [];
      var ids := silences.Keys;
      while ids != {}
        invariant ids <= silences.Keys
        invariant forall s :: s in saved <==> s.id in silences && s.id !in ids && silences[s.id] == s
        invariant forall i, j :: 0 <= i < j < |saved| ==> saved[i].id != saved[j].id
        decreases |ids|
      {
        var id :| id in ids;
        forall i | 0 <= i < |saved| ensures saved[i].id != id {
          assert saved[i] in saved;
        }
        saved := saved + [silences[id]];
        ids := ids - {id};
      }
    }

    method ListWindows() returns (saved: seq<(WindowKey, Time)>)
      ensures forall w :: w in saved <==> w.0 in windows && windows[w.0] == w.1
      ensures forall i, j :: 0 <= i < j < |saved| ==> saved[i].0 != saved[j].0
    {
      saved := [];
      var keys := windows.Keys;
      while keys != {}
        invariant keys <= windows.Keys
        invariant forall w :: w in saved <==> w.0 in windows && w.0 !in keys && windows[w.0] == w.1
        invariant forall i, j :: 0 <= i < j < |saved| ==> saved[i].0 != saved[j].0
        decreases |keys|
      {
        var k :| k in keys;
        forall i | 0 <= i < |saved| ensures saved[i].0 != k {
          assert saved[i] in saved;
        }
        saved := saved + [(k, windows[k])];
        keys := keys - {k};
      }
    }

    method LoadState(savedSilences: seq<Silence>, savedWindows: seq<(WindowKey, Time)>, now: Time)
      modifies this
      ensures State() == Load(globs, old(State()), savedSilences, savedWindows, now)
    {
      for i := 0 to |savedSilences|
        invariant windows == old(windows)
        invariant silences == LoadSilences(globs, old(silences), savedSilences[..i])
      {
        assert savedSilences[..i + 1][..i] == savedSilences[..i];
        if savedSilences[i].id != "" && Validates(globs, savedSilences[i].matcher) {
          silences := silences[savedSilences[i].id := savedSilences[i]];
        }
      }
      assert savedSilences[..|savedSilences|] == savedSilences;
      for i := 0 to |savedWindows|
        invariant silences == LoadSilences(globs, old(silences), savedSilences)
        invariant windows == LoadWindows(old(windows), savedWindows[..i])
      {
        assert savedWindows[..i + 1][..i] == savedWindows[..i];
        var (k, until) := savedWindows[i];
        if k.name != "" && (k !in windows || until > windows[k]) {
          windows := windows[k := until];
        }
      }
      assert savedWindows[..|savedWindows|] == savedWindows;
      PruneNow(now);
    }
  }
}

/** The store against a reference that keeps every operation forever and never prunes. */
module SilenceHistory {
  import opened Base
  import opened Silences

  datatype Op =
    | AddOp(s: Silence)
    | RemoveOp(id: string)
    | DeployOp(container: string, project: string, until: Time)
    | PruneOp(now: Time)  // Silenced, List, Windows: whatever reads the store prunes it first
    | ReloadOp(silences: seq<Silence>, windows: seq<(WindowKey, Time)>, saved: Time, loaded: Time)  // a restart

  function Apply(g: Globs, st: Stored, op: Op): Stored {
    match op
    case AddOp(s) => WithSilence(g, st, s)
    case RemoveOp(id) => st.(silences := st.silences - {id})
    case DeployOp(container, project, until) => WithDeploy(st, container, project, until)
    case PruneOp(now) => Prune(st, now)
    case ReloadOp(silences, windows, _, loaded) => Load(g, EMPTY, silences, windows, loaded)
  }

  function Run(g: Globs, ops: seq<Op>): Stored {
    if ops == [] then EMPTY else Apply(g, Run(g, ops[..|ops| - 1]), ops[|ops| - 1])
  }

  /** Identifiers are fresh, and a restart loads what was saved. */
  ghost predicate Legal(g: Globs, ops: seq<Op>) {
    && (forall i, j :: 0 <= i < j < |ops| && ops[i].AddOp? && ops[j].AddOp? ==> ops[i].s.id != ops[j].s.id)
    && (forall i :: 0 <= i < |ops| && ops[i].AddOp? ==> ops[i].s.id != "")
    && (forall i :: 0 <= i < |ops| && ops[i].ReloadOp? ==>
          Lists(ops[i].silences, ops[i].windows, Prune(Run(g, ops[..i]), ops[i].saved)))
  }

  // ---- The reference ----

  /** The silence was created by operation i, and nobody has removed it. */
  ghost predicate Stands(g: Globs, ops: seq<Op>, i: nat) {
    && i < |ops| && ops[i].AddOp? && WellFormed(g, ops[i].s.matcher) && ops[i].s.created < ops[i].s.until
    && forall j :: i < j < |ops| ==> ops[j] != RemoveOp(ops[i].s.id)
  }

  predicate Opens(op: Op, k: WindowKey) {
    op.DeployOp? && k.name != ""
    && k.name == match k.scope case ContainerScope => op.container case ProjectScope => op.project
  }

  predicate AppliesTo(k: WindowKey, s: Subject) {
    !s.oneOff && k.name != "" && k.name == match k.scope case ContainerScope => s.container case ProjectScope => s.project
  }

  /** Some silence stands and hasn't ended, or some deploy opened a window that hasn't. */
  ghost predicate Reference(g: Globs, ops: seq<Op>, now: Time, s: Subject) {
    ByHand(g, ops, now, s) || ByDeploy(ops, now, s)
  }

  ghost predicate ByHand(g: Globs, ops: seq<Op>, now: Time, s: Subject) {
    exists i: nat :: Stands(g, ops, i) && now < ops[i].s.until && Selects(g, ops[i].s.matcher, s)
  }

  ghost predicate ByDeploy(ops: seq<Op>, now: Time, s: Subject) {
    exists k :: AppliesTo(k, s) && OpenAt(ops, now, k)
  }

  /** Some deploy opened the window until after now. */
  ghost predicate OpenAt(ops: seq<Op>, now: Time, k: WindowKey) {
    exists i :: 0 <= i < |ops| && Opens(ops[i], k) && now < ops[i].until
  }

  /** Something looked at the store at t or later. */
  ghost predicate LookedAfter(ops: seq<Op>, t: Time) {
    exists j :: 0 <= j < |ops| && LooksAt(ops[j]).Some? && LooksAt(ops[j]).value >= t
  }

  function LooksAt(op: Op): Option<Time> {
    match op
    case PruneOp(now) => Some(now)
    case ReloadOp(_, _, saved, loaded) => Some(if saved < loaded then loaded else saved)
    case _ => None
  }

  // ---- The store keeps what matters ----

  ghost predicate SilencesKept(g: Globs, st: Stored, ops: seq<Op>) {
    && (forall id :: id in st.silences ==> exists i: nat :: Stands(g, ops, i) && ops[i].s == st.silences[id] && ops[i].s.id == id)
    && (forall i: nat :: Stands(g, ops, i) ==>
          (ops[i].s.id in st.silences && st.silences[ops[i].s.id] == ops[i].s) || LookedAfter(ops, ops[i].s.until))
  }

  ghost predicate WindowsKept(st: Stored, ops: seq<Op>) {
    && (forall k :: k in st.windows ==> exists i :: 0 <= i < |ops| && Opens(ops[i], k) && ops[i].until == st.windows[k])
    && (forall i, k :: 0 <= i < |ops| && Opens(ops[i], k) ==>
          (k in st.windows && st.windows[k] >= ops[i].until) || LookedAfter(ops, ops[i].until))
  }

  lemma LookedMore(ops: seq<Op>, op: Op, t: Time)
    requires LookedAfter(ops, t)
    ensures LookedAfter(ops + [op], t)
  {
    var j :| 0 <= j < |ops| && LooksAt(ops[j]).Some? && LooksAt(ops[j]).value >= t;
    assert (ops + [op])[j] == ops[j];
  }

  lemma StandsMore(g: Globs, ops: seq<Op>, op: Op, i: nat)
    requires i < |ops|
    ensures Stands(g, ops + [op], i) <==> Stands(g, ops, i) && op != RemoveOp(ops[i].s.id)
  {
    var more := ops + [op];
    assert more[i] == ops[i] && more[|ops|] == op;
    if Stands(g, ops, i) && op != RemoveOp(ops[i].s.id) {
      forall j | i < j < |more| ensures more[j] != RemoveOp(ops[i].s.id) { }
    }
    if Stands(g, more, i) {
      forall j | i < j < |ops| ensures ops[j] != RemoveOp(ops[i].s.id) { assert more[j] == ops[j]; }
    }
  }

  lemma AddKeepsSilences(g: Globs, st: Stored, ops: seq<Op>, s: Silence)
    requires SilencesKept(g, st, ops)
    requires forall i :: 0 <= i < |ops| && ops[i].AddOp? ==> ops[i].s.id != s.id
    ensures SilencesKept(g, WithSilence(g, st, s), ops + [AddOp(s)])
  {
    var op := AddOp(s);
    var more := ops + [op];
    var st' := WithSilence(g, st, s);
    hide Validates, WellFormed;
    ValidatesIs(g, s.matcher);
    assert more[|ops|] == op;
    forall id | id in st'.silences ensures exists i: nat :: Stands(g, more, i) && more[i].s == st'.silences[id] && more[i].s.id == id {
      if id == s.id && Validates(g, s.matcher) && s.created < s.until {
        assert Stands(g, more, |ops|);
      } else {
        var i: nat :| Stands(g, ops, i) && ops[i].s == st.silences[id] && ops[i].s.id == id;
        StandsMore(g, ops, op, i);
        assert more[i] == ops[i];
      }
    }
    forall i: nat | Stands(g, more, i)
      ensures (more[i].s.id in st'.silences && st'.silences[more[i].s.id] == more[i].s) || LookedAfter(more, more[i].s.until)
    {
      if i < |ops| {
        StandsMore(g, ops, op, i);
        assert more[i] == ops[i];
        if LookedAfter(ops, ops[i].s.until) { LookedMore(ops, op, ops[i].s.until); }
      }
    }
  }

  /** Operations that add no silence: what stood still stands, what is dropped was removed or has ended. */
  lemma OtherKeepsSilences(g: Globs, st: Stored, ops: seq<Op>, op: Op, st': Stored)
    requires SilencesKept(g, st, ops) && !op.AddOp?
    requires forall id :: id in st'.silences ==> id in st.silences && st'.silences[id] == st.silences[id] && op != RemoveOp(id)
    requires forall id :: id in st.silences && id !in st'.silences ==>
      op == RemoveOp(id) || (LooksAt(op).Some? && LooksAt(op).value >= st.silences[id].until)
    ensures SilencesKept(g, st', ops + [op])
  {
    var more := ops + [op];
    assert more[|ops|] == op;
    forall id | id in st'.silences ensures exists i: nat :: Stands(g, more, i) && more[i].s == st'.silences[id] && more[i].s.id == id {
      var i: nat :| Stands(g, ops, i) && ops[i].s == st.silences[id] && ops[i].s.id == id;
      StandsMore(g, ops, op, i);
      assert more[i] == ops[i];
    }
    forall i: nat | Stands(g, more, i)
      ensures (more[i].s.id in st'.silences && st'.silences[more[i].s.id] == more[i].s) || LookedAfter(more, more[i].s.until)
    {
      StandsMore(g, ops, op, i);
      assert more[i] == ops[i];
      if LookedAfter(ops, ops[i].s.until) { LookedMore(ops, op, ops[i].s.until); }
    }
  }

  /** A deploy moves the end of the windows it opens to its own deadline, unless they end later. */
  lemma DeployedWindow(st: Stored, op: Op, k: WindowKey)
    requires op.DeployOp?
    ensures var st' := WithDeploy(st, op.container, op.project, op.until);
      && (k in st'.windows <==> k in st.windows || Opens(op, k))
      && (k in st'.windows && Opens(op, k) ==> st'.windows[k] >= op.until)
      && (k in st'.windows && Opens(op, k) && st'.windows[k] != op.until ==> k in st.windows && st'.windows[k] == st.windows[k])
      && (k in st.windows ==> st'.windows[k] >= st.windows[k] && (!Opens(op, k) ==> st'.windows[k] == st.windows[k]))
  {
  }

  lemma DeployKeepsWindows(st: Stored, ops: seq<Op>, op: Op)
    requires WindowsKept(st, ops) && op.DeployOp?
    ensures WindowsKept(WithDeploy(st, op.container, op.project, op.until), ops + [op])
  {
    var more := ops + [op];
    var st' := WithDeploy(st, op.container, op.project, op.until);
    assert more[|ops|] == op;
    forall k | k in st'.windows ensures exists i :: 0 <= i < |more| && Opens(more[i], k) && more[i].until == st'.windows[k] {
      DeployedWindow(st, op, k);
      if k in st.windows && st'.windows[k] == st.windows[k] {
        var i :| 0 <= i < |ops| && Opens(ops[i], k) && ops[i].until == st.windows[k];
        assert more[i] == ops[i];
      } else {
        assert Opens(more[|ops|], k);
      }
    }
    forall i, k | 0 <= i < |more| && Opens(more[i], k)
      ensures (k in st'.windows && st'.windows[k] >= more[i].until) || LookedAfter(more, more[i].until)
    {
      DeployedWindow(st, op, k);
      if i < |ops| {
        assert more[i] == ops[i];
        if LookedAfter(ops, ops[i].until) { LookedMore(ops, op, ops[i].until); }
      }
    }
  }

  ghost predicate OpenedBy(ops: seq<Op>, k: WindowKey, until: Time) {
    exists i :: 0 <= i < |ops| && Opens(ops[i], k) && ops[i].until == until
  }

  lemma OpenedMore(ops: seq<Op>, op: Op, k: WindowKey, until: Time)
    requires OpenedBy(ops, k, until)
    ensures OpenedBy(ops + [op], k, until)
  {
    var i :| 0 <= i < |ops| && Opens(ops[i], k) && ops[i].until == until;
    assert (ops + [op])[i] == ops[i];
  }

  lemma LookedNow(ops: seq<Op>, op: Op, t: Time)
    requires LooksAt(op).Some? && LooksAt(op).value >= t
    ensures LookedAfter(ops + [op], t)
  {
    assert (ops + [op])[|ops|] == op;
  }

  /** A window that was opened is still there and no shorter, or has ended by some look at the store. */
  ghost predicate KeptOrEnded(windows: map<WindowKey, Time>, ops: seq<Op>, k: WindowKey, until: Time) {
    (k in windows && windows[k] >= until) || LookedAfter(ops, until)
  }

  lemma StillKeptOrEnded(st: Stored, ops: seq<Op>, op: Op, st': Stored, k: WindowKey, until: Time)
    requires KeptOrEnded(st.windows, ops, k, until)
    requires k in st'.windows ==> k in st.windows && st'.windows[k] == st.windows[k]
    requires k in st.windows && k !in st'.windows ==> LooksAt(op).Some? && LooksAt(op).value >= st.windows[k]
    ensures KeptOrEnded(st'.windows, ops + [op], k, until)
  {
    hide LookedAfter, LooksAt;
    if LookedAfter(ops, until) {
      LookedMore(ops, op, until);
    } else if k !in st'.windows {
      LookedNow(ops, op, until);
    }
  }

  /** Operations that open no window: what is dropped has ended. */
  lemma OtherKeepsWindows(st: Stored, ops: seq<Op>, op: Op, st': Stored)
    requires WindowsKept(st, ops) && !op.DeployOp?
    requires forall k :: k in st'.windows ==> k in st.windows && st'.windows[k] == st.windows[k]
    requires forall k :: k in st.windows && k !in st'.windows ==> LooksAt(op).Some? && LooksAt(op).value >= st.windows[k]
    ensures WindowsKept(st', ops + [op])
  {
    hide LookedAfter, LooksAt;
    var more := ops + [op];
    forall k | k in st'.windows ensures OpenedBy(more, k, st'.windows[k]) {
      assert OpenedBy(ops, k, st.windows[k]);
      OpenedMore(ops, op, k, st.windows[k]);
    }
    forall i, k | 0 <= i < |more| && Opens(more[i], k) ensures KeptOrEnded(st'.windows, more, k, more[i].until) {
      assert i < |ops| && more[i] == ops[i];
      assert KeptOrEnded(st.windows, ops, k, ops[i].until);
      StillKeptOrEnded(st, ops, op, st', k, ops[i].until);
    }
  }

  // ---- Restarts ----

  lemma {:induction false} LoadSilencesIs(g: Globs, saved: seq<Silence>, st: map<string, Silence>)
    requires forall s :: s in saved ==> s.id in st && st[s.id] == s && s.id != "" && Validates(g, s.matcher)
    ensures var m := LoadSilences(g, map[], saved);
      forall id :: (id in m <==> exists s :: s in saved && s.id == id) && (id in m ==> id in st && m[id] == st[id])
    decreases |saved|
  {
    if saved != [] {
      var n := |saved| - 1;
      assert saved == saved[..n] + [saved[n]];
      LoadSilencesIs(g, saved[..n], st);
    }
  }

  lemma {:induction false} LoadWindowsIs(saved: seq<(WindowKey, Time)>, st: map<WindowKey, Time>)
    requires forall w :: w in saved ==> w.0 in st && st[w.0] == w.1 && w.0.name != ""
    ensures var m := LoadWindows(map[], saved);
      forall k :: (k in m <==> exists w :: w in saved && w.0 == k) && (k in m ==> k in st && m[k] == st[k])
    decreases |saved|
  {
    if saved != [] {
      var n := |saved| - 1;
      assert saved == saved[..n] + [saved[n]];
      LoadWindowsIs(saved[..n], st);
    }
  }

  lemma SilencesReloaded(g: Globs, saved: seq<Silence>, st: map<string, Silence>)
    requires forall s :: s in saved <==> s.id in st && st[s.id] == s
    requires forall id :: id in st ==> st[id].id == id != "" && Validates(g, st[id].matcher)
    ensures LoadSilences(g, map[], saved) == st
  {
    hide LoadSilences, Validates;
    LoadSilencesIs(g, saved, st);
    forall id ensures id in LoadSilences(g, map[], saved) <==> id in st {
      if id in st {
        assert st[id] in saved;
      }
    }
  }

  lemma WindowsReloaded(saved: seq<(WindowKey, Time)>, st: map<WindowKey, Time>)
    requires forall w :: w in saved <==> w.0 in st && st[w.0] == w.1
    requires forall k :: k in st ==> k.name != ""
    ensures LoadWindows(map[], saved) == st
  {
    hide LoadWindows;
    LoadWindowsIs(saved, st);
    forall k ensures k in LoadWindows(map[], saved) <==> k in st {
      if k in st {
        assert (k, st[k]) in saved;
      }
    }
  }

  /** Saving and loading is pruning, twice. */
  lemma ReloadIsPrune(g: Globs, st: Stored, silences: seq<Silence>, windows: seq<(WindowKey, Time)>, saved: Time, loaded: Time)
    requires Lists(silences, windows, Prune(st, saved))
    requires forall id :: id in st.silences ==> st.silences[id].id == id != "" && Validates(g, st.silences[id].matcher)
    requires forall k :: k in st.windows ==> k.name != ""
    ensures Load(g, EMPTY, silences, windows, loaded) == Prune(Prune(st, saved), loaded)
  {
    hide LoadSilences, LoadWindows, Validates;
    var p := Prune(st, saved);
    SilencesReloaded(g, silences, p.silences);
    WindowsReloaded(windows, p.windows);
  }

  // ---- Every run ----

  lemma LegalPrefix(g: Globs, ops: seq<Op>, n: nat)
    requires Legal(g, ops) && n <= |ops|
    ensures Legal(g, ops[..n])
  {
    forall i | 0 <= i < n ensures ops[..n][..i] == ops[..i] { }
  }

  lemma ReloadKeeps(g: Globs, st: Stored, ops: seq<Op>, op: Op)
    requires SilencesKept(g, st, ops) && WindowsKept(st, ops) && op.ReloadOp?
    requires forall i :: 0 <= i < |ops| && ops[i].AddOp? ==> ops[i].s.id != ""
    requires Lists(op.silences, op.windows, Prune(st, op.saved))
    ensures SilencesKept(g, Apply(g, st, op), ops + [op]) && WindowsKept(Apply(g, st, op), ops + [op])
  {
    hide Load, Validates, Stands, LookedAfter, Lists;
    KeptAreValid(g, st, ops);
    ReloadIsPrune(g, st, op.silences, op.windows, op.saved, op.loaded);
    OtherKeepsSilences(g, st, ops, op, Apply(g, st, op));
    OtherKeepsWindows(st, ops, op, Apply(g, st, op));
  }

  /** What the store holds was added with an identifier and a valid matcher, and windows have names. */
  lemma KeptAreValid(g: Globs, st: Stored, ops: seq<Op>)
    requires SilencesKept(g, st, ops) && WindowsKept(st, ops)
    requires forall i :: 0 <= i < |ops| && ops[i].AddOp? ==> ops[i].s.id != ""
    ensures forall id :: id in st.silences ==> st.silences[id].id == id != "" && Validates(g, st.silences[id].matcher)
    ensures forall k :: k in st.windows ==> k.name != ""
  {
    hide LookedAfter, Validates, WellFormed;
    forall id | id in st.silences ensures st.silences[id].id == id != "" && Validates(g, st.silences[id].matcher) {
      var i: nat :| Stands(g, ops, i) && ops[i].s == st.silences[id] && ops[i].s.id == id;
      ValidatesIs(g, ops[i].s.matcher);
    }
  }

  lemma {:induction false} RunKeeps(g: Globs, ops: seq<Op>)
    requires Legal(g, ops)
    ensures SilencesKept(g, Run(g, ops), ops) && WindowsKept(Run(g, ops), ops)
    decreases |ops|
  {
    if ops != [] {
      var n := |ops| - 1;
      var st, op := Run(g, ops[..n]), ops[n];
      LegalPrefix(g, ops, n);
      RunKeeps(g, ops[..n]);
      assert ops == ops[..n] + [op];
      match op
      case AddOp(s) =>
        AddKeepsSilences(g, st, ops[..n], s);
        OtherKeepsWindows(st, ops[..n], op, Apply(g, st, op));
      case RemoveOp(_) =>
        OtherKeepsSilences(g, st, ops[..n], op, Apply(g, st, op));
        OtherKeepsWindows(st, ops[..n], op, Apply(g, st, op));
      case DeployOp(_, _, _) =>
        OtherKeepsSilences(g, st, ops[..n], op, Apply(g, st, op));
        DeployKeepsWindows(st, ops[..n], op);
      case PruneOp(_) =>
        OtherKeepsSilences(g, st, ops[..n], op, Apply(g, st, op));
        OtherKeepsWindows(st, ops[..n], op, Apply(g, st, op));
      case ReloadOp(_, _, _, _) =>
        ReloadKeeps(g, st, ops[..n], op);
    }
  }

  // ---- What the store promises ----

  /** The clock hasn't run backwards since the store was last looked at. */
  ghost predicate Current(ops: seq<Op>, now: Time) {
    forall j :: 0 <= j < |ops| && LooksAt(ops[j]).Some? ==> LooksAt(ops[j]).value <= now
  }

  lemma NotLooked(ops: seq<Op>, now: Time, t: Time)
    requires Current(ops, now) && now < t
    ensures !LookedAfter(ops, t)
  {
  }

  lemma OpenWindows(ops: seq<Op>, st: Stored, now: Time, k: WindowKey)
    requires WindowsKept(st, ops) && Current(ops, now)
    ensures k in st.windows && now < st.windows[k] <==> OpenAt(ops, now, k)
  {
    if k in st.windows && now < st.windows[k] {
      var i :| 0 <= i < |ops| && Opens(ops[i], k) && ops[i].until == st.windows[k];
    }
    if OpenAt(ops, now, k) {
      var i :| 0 <= i < |ops| && Opens(ops[i], k) && now < ops[i].until;
      NotLooked(ops, now, ops[i].until);
    }
  }

  lemma CoveredIsByDeploy(ops: seq<Op>, st: Stored, now: Time, s: Subject)
    requires WindowsKept(st, ops) && Current(ops, now)
    ensures Covered(Prune(st, now).windows, s) <==> ByDeploy(ops, now, s)
  {
    var c, p := WindowKey(ContainerScope, s.container), WindowKey(ProjectScope, s.project);
    OpenWindows(ops, st, now, c);
    OpenWindows(ops, st, now, p);
    assert forall k :: AppliesTo(k, s) ==> k == c || k == p;
    assert !s.oneOff && s.container != "" ==> AppliesTo(c, s);
    assert !s.oneOff && s.project != "" ==> AppliesTo(p, s);
  }

  /** A silence that stands is in the store, if it selects the subject now. */
  lemma StandingIsKept(g: Globs, ops: seq<Op>, st: Stored, now: Time, i: nat)
    requires SilencesKept(g, st, ops) && Current(ops, now) && Stands(g, ops, i) && now < ops[i].s.until
    ensures ops[i].s.id in Prune(st, now).silences && Prune(st, now).silences[ops[i].s.id] == ops[i].s
  {
    hide WellFormed, LookedAfter, Current;
    NotLooked(ops, now, ops[i].s.until);
  }

  lemma KeptIsStanding(g: Globs, ops: seq<Op>, st: Stored, now: Time, id: string) returns (i: nat)
    requires SilencesKept(g, st, ops) && id in Prune(st, now).silences
    ensures Stands(g, ops, i) && now < ops[i].s.until && ops[i].s == Prune(st, now).silences[id]
  {
    hide WellFormed, LookedAfter;
    i :| Stands(g, ops, i) && ops[i].s == st.silences[id] && ops[i].s.id == id;
  }

  lemma StandingIsByHand(g: Globs, ops: seq<Op>, st: Stored, now: Time, s: Subject)
    requires SilencesKept(g, st, ops) && Current(ops, now)
    ensures (exists id :: id in Prune(st, now).silences && Matches(g, Prune(st, now).silences[id].matcher, s))
            <==> ByHand(g, ops, now, s)
  {
    hide Matches, Selects, WellFormed, SilencesKept, Current, Prune;
    if id :| id in Prune(st, now).silences && Matches(g, Prune(st, now).silences[id].matcher, s) {
      var i := KeptIsStanding(g, ops, st, now, id);
      MatchesIs(g, ops[i].s.matcher, s);
    }
    if ByHand(g, ops, now, s) {
      var i: nat :| Stands(g, ops, i) && now < ops[i].s.until && Selects(g, ops[i].s.matcher, s);
      MatchesIs(g, ops[i].s.matcher, s);
      StandingIsKept(g, ops, st, now, i);
    }
  }

  /**
   Whatever was pruned, saved or loaded in between, the store gives the answer of a reference that
   keeps every operation forever.
   */
  lemma NeverForgetsWhatMatters(g: Globs, ops: seq<Op>, now: Time, s: Subject)
    requires Legal(g, ops) && Current(ops, now)
    ensures Answer(g, Run(g, ops), now, s) <==> Reference(g, ops, now, s)
  {
    RunKeeps(g, ops);
    var st := Run(g, ops);
    CoveredIsByDeploy(ops, st, now, s);
    StandingIsByHand(g, ops, st, now, s);
  }

  /** An open deploy window ends at the latest of all the deadlines it was given, in whatever order they came. */
  lemma WindowEndsAtTheLatestDeadline(g: Globs, ops: seq<Op>, now: Time, k: WindowKey)
    requires Legal(g, ops) && Current(ops, now)
    ensures k in Prune(Run(g, ops), now).windows <==> OpenAt(ops, now, k)
    ensures k in Prune(Run(g, ops), now).windows ==>
      var until := Run(g, ops).windows[k];
      && (exists i :: 0 <= i < |ops| && Opens(ops[i], k) && ops[i].until == until)
      && (forall i :: 0 <= i < |ops| && Opens(ops[i], k) ==> ops[i].until <= until)
  {
    RunKeeps(g, ops);
    var st := Run(g, ops);
    OpenWindows(ops, st, now, k);
    if k in Prune(st, now).windows {
      forall i | 0 <= i < |ops| && Opens(ops[i], k) ensures ops[i].until <= st.windows[k] {
        if ops[i].until > now { NotLooked(ops, now, ops[i].until); }
      }
    }
  }

  // ---- Loading any list ----

  /** The last silence in the list with this identifier and a well-formed matcher. */
  ghost function LastLoadable(g: Globs, saved: seq<Silence>, id: string): (s: Option<Silence>)
    ensures s.Some? ==> s.value in saved && s.value.id == id && WellFormed(g, s.value.matcher)
    ensures s.None? ==> forall other :: other in saved && other.id == id ==> !WellFormed(g, other.matcher)
  {
    if saved == [] then None
    else
      var n := |saved| - 1;
      assert saved == saved[..n] + [saved[n]];
      if saved[n].id == id && WellFormed(g, saved[n].matcher) then Some(saved[n]) else LastLoadable(g, saved[..n], id)
  }

  /** Of a list from anywhere, exactly the named and well-formed silences are loaded, the last of each name. */
  lemma {:induction false} LoadsWhatIsLoadable(g: Globs, silences: map<string, Silence>, saved: seq<Silence>, id: string)
    ensures var loaded, last := LoadSilences(g, silences, saved), LastLoadable(g, saved, id);
      && (id in loaded <==> id in silences || (id != "" && last.Some?))
      && (id in loaded ==> loaded[id] == if id != "" && last.Some? then last.value else silences[id])
    decreases |saved|
  {
    hide WellFormed, Validates;
    if saved != [] {
      var n := |saved| - 1;
      LoadsWhatIsLoadable(g, silences, saved[..n], id);
      ValidatesIs(g, saved[n].matcher);
    }
  }
}

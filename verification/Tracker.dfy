/**
 The episode tracker: which level-triggered problems are open, and what is said about them. Every
 critical section comes down to a list of operations on single keys.
 */
module Tracker {
  import opened Base
  import opened Issues
  import opened Keys

  /** An open episode. `notified` says that its alert has gone out. */
  datatype Episode = Episode(issue: Issue, since: Time, containerID: string, notified: bool)

  type Active = map<string, Episode>

  /** What the last poll knew about a container name. */
  datatype Ref = Ref(id: string, project: string, tty: bool)

  datatype Op =
    | Observe(key: string, issue: Option<Issue>, current: Option<Container>, observedAt: Option<Time>, quiet: bool, now: Time)
    | Release(key: string, quiet: bool, refs: map<string, Ref>, now: Time)  // one held-back alert, looked at again
    | Remove(key: string, now: Time)                                        // its container was removed
    | Restart(known: set<string>, excluded: set<string>)                    // saved, and restored by a new process

  /** The notification that an episode is over. Nobody hears about it who didn't hear about the problem. */
  function Resolution(a: Episode, reason: string, now: Time): Issue {
    a.issue.(resolved := true, logs := [], analysis := "", detectedAt := now,
             message := Over(reason, now - a.since, a.issue.message), silenced := !a.notified)
  }

  function Opened(key: string, issue: Issue, quiet: bool, now: Time): Episode {
    Episode(issue.(key := key, silenced := false), now, issue.container.id, !quiet)
  }

  predicate Escalates(a: Episode, issue: Issue) {
    SeverityRank(issue.severity) > SeverityRank(a.issue.severity)
  }

  /** One key, observed: the problem is there, or it isn't. */
  function Track(active: Active, key: string, issue: Option<Issue>, current: Option<Container>, quiet: bool, now: Time)
    : (Active, Option<Issue>)
  {
    if issue.Some? && key !in active then
      (active[key := Opened(key, issue.value, quiet, now)], Some(issue.value.(key := key, silenced := quiet)))
    else if issue.Some? && Escalates(active[key], issue.value) then
      var a := active[key];
      (active[key := a.(issue := issue.value.(key := key, silenced := false), notified := a.notified || !quiet)],
       Some(issue.value.(key := key, silenced := quiet)))
    else if issue.None? && key in active then
      var r := Resolution(active[key], "resolved", now);
      (active - {key}, Some(if current.Some? then r.(container := current.value) else r))
    else (active, None)
  }

  /** An observation doesn't close an episode that was opened after it was made. */
  predicate IsStale(active: Active, key: string, issue: Option<Issue>, observedAt: Option<Time>) {
    key in active && issue.None? && observedAt.Some? && active[key].since > observedAt.value
  }

  function Filled(c: Container, refs: map<string, Ref>): Container {
    if c.id == "" && c.name != "" then
      var ref := if c.name in refs then refs[c.name] else Ref("", "", false);
      c.(id := ref.id, tty := ref.tty)
    else c
  }

  /** The alert of an episode that opened unannounced, as it goes out later. */
  function Released(a: Episode, refs: map<string, Ref>, now: Time): Issue {
    a.issue.(container := Filled(a.issue.container, refs), detectedAt := now,
             message := HeldBack(a.issue.message, now - a.since))
  }

  /** A restored episode is dropped if nothing would ever resolve it. */
  predicate Kept(key: string, a: Episode, known: set<string>, excluded: set<string>) {
    Cut(key) in known && (a.issue.container.name == "" || a.issue.container.name !in excluded)
  }

  function Restored(key: string, a: Episode): Episode {
    a.(issue := a.issue.(key := key, logs := []))
  }

  function AsList(o: Option<Issue>): seq<Issue> {
    if o.Some? then [o.value] else []
  }

  function Apply(active: Active, op: Op): (Active, seq<Issue>) {
    match op
    case Observe(key, issue, current, observedAt, quiet, now) =>
      if IsStale(active, key, issue, observedAt) then (active, [])
      else
        var (active', out) := Track(active, key, issue, current, quiet, now);
        (active', AsList(out))
    case Release(key, quiet, refs, now) =>
      if key in active && !active[key].notified && !quiet then
        (active[key := active[key].(notified := true)], [Released(active[key], refs, now)])
      else (active, [])
    case Remove(key, now) =>
      if key in active then (active - {key}, [Resolution(active[key], "container removed", now)]) else (active, [])
    case Restart(known, excluded) =>
      (map key | key in active && Kept(key, active[key], known, excluded) :: Restored(key, active[key]), [])
  }

  function Run(active: Active, ops: seq<Op>): (Active, seq<Issue>) {
    if ops == [] then (active, [])
    else
      var (active1, before) := Run(active, ops[..|ops| - 1]);
      var (active2, last) := Apply(active1, ops[|ops| - 1]);
      (active2, before + last)
  }

  lemma {:induction false} RunConcat(active: Active, a: seq<Op>, b: seq<Op>)
    ensures Run(active, a + b).0 == Run(Run(active, a).0, b).0
    ensures Run(active, a + b).1 == Run(active, a).1 + Run(Run(active, a).0, b).1
    decreases |b|
  {
    if b == [] {
      assert a + b == a;
    } else {
      assert (a + b)[..|a + b| - 1] == a + b[..|b| - 1];
      RunConcat(active, a, b[..|b| - 1]);
    }
  }

  lemma RunOne(active: Active, op: Op)
    ensures Run(active, [op]).0 == Apply(active, op).0 && Run(active, [op]).1 == Apply(active, op).1
  {
    assert [op][..0] == [];
  }

  // ---- Critical sections as lists of operations ----

  /** A whole report as operations: one observation per problem, in the order reported. */
  function TrackOps(prefix: string, issues: seq<Issue>, id: Issue -> string, quiet: Issue -> bool, now: Time): (ops: seq<Op>)
    ensures |ops| == |issues|
  {
    seq(|issues|, i requires 0 <= i < |issues| =>
      Observe(prefix + id(issues[i]), Some(issues[i]), None, None, quiet(issues[i]), now))
  }

  function CloseOps(keys: seq<string>, now: Time): (ops: seq<Op>)
    ensures |ops| == |keys|
  {
    seq(|keys|, i requires 0 <= i < |keys| => Observe(keys[i], None, None, None, false, now))
  }

  function RemoveOps(keys: seq<string>, now: Time): (ops: seq<Op>)
    ensures |ops| == |keys|
  {
    seq(|keys|, i requires 0 <= i < |keys| => Remove(keys[i], now))
  }

  function ReleaseOps(keys: seq<string>, quiet: Issue -> bool, active: Active, refs: map<string, Ref>, now: Time): (ops: seq<Op>)
    ensures |ops| == |keys|
  {
    seq(|keys|, i requires 0 <= i < |keys| =>
      Release(keys[i], keys[i] in active && quiet(active[keys[i]].issue), refs, now))
  }

  predicate HasPrefix(key: string, prefix: string) {
    prefix <= key
  }

  /** The keys that are open under the prefix and weren't reported, each once, in any order. */
  ghost predicate StaleKeys(active: Active, prefix: string, reported: set<string>, order: seq<string>) {
    && (forall k :: k in order <==> k in active && HasPrefix(k, prefix) && k !in reported)
    && (forall i, j :: 0 <= i < j < |order| ==> order[i] != order[j])
  }

  function Reported(prefix: string, issues: seq<Issue>, id: Issue -> string): set<string> {
    set i | 0 <= i < |issues| :: prefix + id(issues[i])
  }

  ghost predicate Enumerates(order: seq<string>, keys: set<string>) {
    (forall k :: k in order <==> k in keys) && (forall i, j :: 0 <= i < j < |order| ==> order[i] != order[j])
  }
}

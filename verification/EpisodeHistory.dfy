/** What the tracker knows about an episode and says about it, against the operations since it was opened. */
module EpisodeHistory {
  import opened Base
  import opened Issues
  import opened Keys
  import opened Tracker
  import opened TrackerTheorems
  import opened EngineState

  /** The operation reports a problem under the key. */
  predicate Problem(op: Op, key: string) {
    op.Observe? && op.key == key && op.issue.Some?
  }

  predicate WorseThan(a: Op, b: Op, key: string)
    requires Problem(b, key)
  {
    Problem(a, key) && SeverityRank(a.issue.value.severity) > SeverityRank(b.issue.value.severity)
  }

  /** The worst problem reported under the key from operation i on, the first of several. */
  function Worst(ops: seq<Op>, i: nat, key: string): (j: nat)
    requires i < |ops| && Problem(ops[i], key)
    ensures i <= j < |ops| && Problem(ops[j], key)
  {
    var n := |ops| - 1;
    if i == n then i
    else
      var j := Worst(ops[..n], i, key);
      if WorseThan(ops[n], ops[j], key) then n else j
  }

  /** Somebody heard of it: when it was reported, when it got worse, or when it was looked at again. */
  function Announced(ops: seq<Op>, i: nat, key: string): bool
    requires i < |ops| && Problem(ops[i], key)
  {
    var n := |ops| - 1;
    if i == n then !ops[i].quiet
    else
      || Announced(ops[..n], i, key)
      || (Worst(ops, i, key) == n && !ops[n].quiet)
      || (ops[n].Release? && ops[n].key == key && !ops[n].quiet)
  }

  function ProblemAt(ops: seq<Op>, i: nat, key: string): Issue
    requires i < |ops| && Problem(ops[i], key)
  {
    ops[Worst(ops, i, key)].issue.value
  }

  /** The operation ends the episode opened by operation i. */
  predicate Ends(ops: seq<Op>, op: Op, i: nat, key: string)
    requires i < |ops| && Problem(ops[i], key)
  {
    match op
    case Observe(k, issue, _, observedAt, _, _) =>
      k == key && issue.None? && !(observedAt.Some? && ops[i].now > observedAt.value)
    case Release(_, _, _, _) => false
    case Remove(k, _) => k == key
    case Restart(known, excluded) =>
      var name := ProblemAt(ops, i, key).container.name;
      Cut(key) !in known || (name != "" && name in excluded)
  }

  /** The operation that opened the key's episode, if one is open. */
  function Opening(ops: seq<Op>, key: string): (at: Option<nat>)
    ensures at.Some? ==> at.value < |ops| && Problem(ops[at.value], key)
  {
    if ops == [] then None
    else
      var n := |ops| - 1;
      match Opening(ops[..n], key)
      case None => if Problem(ops[n], key) then Some(n) else None
      case Some(i) => if Ends(ops[..n], ops[n], i, key) then None else Some(i)
  }

  /** In other words: a problem reported when nothing was open under the key, and not ended since. */
  lemma {:induction false} OpeningIs(ops: seq<Op>, key: string, i: nat)
    requires i < |ops| && Problem(ops[i], key) && Opening(ops[..i], key).None?
    ensures Opening(ops, key) == Some(i) <==> forall j :: i < j < |ops| ==> !Ends(ops[..j], ops[j], i, key)
    decreases |ops|
  {
    hide Ends;
    var n := |ops| - 1;
    if i < n {
      assert ops[..n][..i] == ops[..i];
      OpeningIs(ops[..n], key, i);
      assert forall j :: i < j < n ==> ops[..n][..j] == ops[..j];
    }
  }

  lemma {:induction false} WorstIs(ops: seq<Op>, i: nat, key: string, k: nat)
    requires i < |ops| && Problem(ops[i], key) && i <= k < |ops| && Problem(ops[k], key)
    ensures var worst := Worst(ops, i, key);
      && SeverityRank(ops[k].issue.value.severity) <= SeverityRank(ops[worst].issue.value.severity)
      && (k < worst ==> SeverityRank(ops[k].issue.value.severity) < SeverityRank(ops[worst].issue.value.severity))
    decreases |ops|
  {
    hide SeverityRank;
    var n := |ops| - 1;
    if i < n && k < n {
      WorstIs(ops[..n], i, key, k);
    } else if i < n {
      var j := Worst(ops[..n], i, key);
    }
  }

  // ---- The episode is its history ----

  /** The stored alert: the worst problem, without its logs once it has been through a restart. */
  function Stored(issue: Issue, key: string): Issue {
    issue.(key := key, silenced := false)
  }

  ghost predicate Tells(active: Active, ops: seq<Op>, key: string) {
    match Opening(ops, key)
    case None => key !in active
    case Some(i) =>
      && key in active
      && active[key].since == ops[i].now
      && active[key].containerID == ops[i].issue.value.container.id
      && active[key].notified == Announced(ops, i, key)
      && active[key].issue == Stored(ProblemAt(ops, i, key), key).(logs := active[key].issue.logs)
      && (active[key].issue.logs == ProblemAt(ops, i, key).logs || active[key].issue.logs == [])
  }

  lemma WorstAppend(ops: seq<Op>, op: Op, i: nat, key: string)
    requires i < |ops| && Problem(ops[i], key)
    ensures var j := Worst(ops, i, key);
      Worst(ops + [op], i, key) == if WorseThan(op, ops[j], key) then |ops| else j
    ensures ProblemAt(ops + [op], i, key) == if WorseThan(op, ops[Worst(ops, i, key)], key) then op.issue.value else ProblemAt(ops, i, key)
    ensures Announced(ops + [op], i, key) <==>
      || Announced(ops, i, key)
      || (WorseThan(op, ops[Worst(ops, i, key)], key) && !op.quiet)
      || (op.Release? && op.key == key && !op.quiet)
  {
    hide WorseThan, Problem;
    assert (ops + [op])[..|ops|] == ops;
  }

  lemma OpeningAppend(ops: seq<Op>, op: Op, key: string)
    ensures Opening(ops + [op], key) ==
      match Opening(ops, key)
      case None => if Problem(op, key) then Some(|ops|) else None
      case Some(i) => if Ends(ops, op, i, key) then None else Some(i)
  {
    hide Ends, Problem;
    assert (ops + [op])[..|ops|] == ops;
  }

  lemma TellsAfterOpening(active: Active, ops: seq<Op>, op: Op, key: string)
    requires Opening(ops, key).None? && Tells(active, ops, key)
    ensures Tells(Apply(active, op).0, ops + [op], key)
  {
    hide Opening, SeverityRank, Ends;
    OpeningAppend(ops, op, key);
    assert (ops + [op])[|ops|] == op;
  }

  lemma TellsStill(active: Active, ops: seq<Op>, op: Op, key: string)
    requires Opening(ops, key).Some? && Tells(active, ops, key) && op.Observe?
    ensures Tells(Apply(active, op).0, ops + [op], key)
  {
    hide Opening, SeverityRank, Worst, Announced;
    var i := Opening(ops, key).value;
    OpeningAppend(ops, op, key);
    WorstAppend(ops, op, i, key);
    assert (ops + [op])[i] == ops[i];
  }

  lemma TellsOtherwise(active: Active, ops: seq<Op>, op: Op, key: string)
    requires Opening(ops, key).Some? && Tells(active, ops, key) && !op.Observe?
    ensures Tells(Apply(active, op).0, ops + [op], key)
  {
    hide Opening, SeverityRank, Worst, Announced, Cut;
    var i := Opening(ops, key).value;
    OpeningAppend(ops, op, key);
    WorstAppend(ops, op, i, key);
    assert (ops + [op])[i] == ops[i];
  }

  /**
   * Over every run of operations, what is stored about a key is what happened to it: it is open since a problem was
   * reported when it wasn't, belongs to the container of that report, carries the worst problem reported since, and
   * counts as announced if anybody heard of any of that.
   */
  lemma {:induction false} EpisodeIsHistory(ops: seq<Op>, key: string)
    ensures Tells(Run(map[], ops).0, ops, key)
    decreases |ops|
  {
    if ops != [] {
      hide Tells, Apply, Opening;
      var n := |ops| - 1;
      EpisodeIsHistory(ops[..n], key);
      assert ops[..n] + [ops[n]] == ops;
      var active := Run(map[], ops[..n]).0;
      if Opening(ops[..n], key).None? {
        TellsAfterOpening(active, ops[..n], ops[n], key);
      } else if ops[n].Observe? {
        TellsStill(active, ops[..n], ops[n], key);
      } else {
        TellsOtherwise(active, ops[..n], ops[n], key);
      }
    } else {
      assert Tells(map[], [], key);
    }
  }

  // ---- What is said ----

  function Resolved(issue: Issue, key: string, announced: bool, lasted: Time, reason: string, now: Time): Issue {
    issue.(key := key, resolved := true, silenced := !announced, logs := [], analysis := "", detectedAt := now,
           message := Over(reason, lasted, issue.message))
  }

  /** A container that wasn't known when its problem was reported gets what the last poll knew of its name. */
  predicate IsFilled(was: Container, filled: Container, refs: map<string, Ref>) {
    if was.id != "" || was.name == "" then filled == was
    else if was.name in refs then filled == was.(id := refs[was.name].id, tty := refs[was.name].tty)
    else filled == was.(tty := false)
  }

  ghost predicate Says(ops: seq<Op>, op: Op, key: string, said: seq<Issue>) {
    match Opening(ops, key)
    case None => said == if Problem(op, key) then [op.issue.value.(key := key, silenced := op.quiet)] else []
    case Some(i) =>
      var issue, announced := ProblemAt(ops, i, key), Announced(ops, i, key);
      match op
      case Observe(_, Some(worse), _, _, quiet, _) =>
        said == if WorseThan(op, ops[Worst(ops, i, key)], key) then [worse.(key := key, silenced := quiet)] else []
      case Observe(_, None, current, _, _, now) =>
        var r := Resolved(issue, key, announced, now - ops[i].now, "resolved", now);
        said == if !Ends(ops, op, i, key) then [] else [if current.Some? then r.(container := current.value) else r]
      case Remove(_, now) => said == [Resolved(issue, key, announced, now - ops[i].now, "container removed", now)]
      case Release(_, quiet, refs, now) =>
        if announced || quiet then said == []
        else
          && |said| == 1 && IsFilled(issue.container, said[0].container, refs)
          && said[0].logs in {issue.logs, []}
          && said[0] == Stored(issue, key).(logs := said[0].logs, container := said[0].container, detectedAt := now,
                                            message := HeldBack(issue.message, now - ops[i].now))
      case Restart(_, _) => said == []
  }

  lemma SaysAtFirst(active: Active, ops: seq<Op>, op: Op)
    requires !op.Restart? && Tells(active, ops, op.key) && Opening(ops, op.key).None?
    ensures Says(ops, op, op.key, Apply(active, op).1)
  {
    hide Opening, SeverityRank, Ends;
  }

  lemma SaysLater(active: Active, ops: seq<Op>, op: Op)
    requires !op.Restart? && Tells(active, ops, op.key) && Opening(ops, op.key).Some?
    ensures Says(ops, op, op.key, Apply(active, op).1)
  {
    hide Opening, SeverityRank, Worst, Announced;
  }

  /** After every run, what an operation says about its key is what the history of that key calls for. */
  lemma SaysWhatHappened(ops: seq<Op>, op: Op)
    requires !op.Restart?
    ensures Says(ops, op, op.key, Apply(Run(map[], ops).0, op).1)
  {
    hide Run, Apply, Says, Tells, Opening;
    EpisodeIsHistory(ops, op.key);
    if Opening(ops, op.key).None? {
      SaysAtFirst(Run(map[], ops).0, ops, op);
    } else {
      SaysLater(Run(map[], ops).0, ops, op);
    }
  }

  // ---- Removed containers ----

  /** An episode that is open for a problem reported with this container. */
  ghost predicate OpenFor(ops: seq<Op>, key: string, id: string) {
    var i := Opening(ops, key);
    i.Some? && ops[i.value].issue.value.container.id == id
  }

  lemma {:induction false} RemovalsSay(active: Active, order: seq<string>, now: Time)
    requires Distinct(order) && forall k :: k in order ==> k in active
    ensures |Run(active, RemoveOps(order, now)).1| == |order|
    ensures forall i :: 0 <= i < |order| ==>
      [Run(active, RemoveOps(order, now)).1[i]] == Apply(active, Remove(order[i], now)).1
    decreases |order|
  {
    if order != [] {
      hide Run, Resolution, RemoveOps;
      var n := |order| - 1;
      assert order == order[..n] + [order[n]];
      assert forall k :: k in order[..n] ==> k in order;
      RemovalsSay(active, order[..n], now);
      RemoveLast(active, order[..n], order[n], now);
    } else {
      NothingRemoved(active, now);
    }
  }

  /**
   * Removing a container ends exactly the episodes that were opened for it and are still open, whatever they turned into
   * since. Each gets one resolution, which says what the history calls for.
   */
  lemma RemovalEndsItsEpisodes(ops: seq<Op>, id: string, order: seq<string>, now: Time)
    requires Enumerates(order, KeysOf(Run(map[], ops).0, id))
    ensures var (active, said) := Run(Run(map[], ops).0, RemoveOps(order, now));
      && (forall key :: key in order <==> OpenFor(ops, key, id))
      && (forall key :: key in active <==> Opening(ops, key).Some? && !OpenFor(ops, key, id))
      && |said| == |order|
      && forall k :: 0 <= k < |said| ==> Says(ops, Remove(order[k], now), order[k], [said[k]])
  {
    hide Run, Apply, Says, Opening, RemoveOps, ProblemAt, Announced;
    var active := Run(map[], ops).0;
    forall key ensures key in KeysOf(active, id) <==> OpenFor(ops, key, id)
               ensures key in active <==> Opening(ops, key).Some? {
      EpisodeIsHistory(ops, key);
    }
    RemoveOpsKeys(active, order, now);
    InTheMap(active, id);
    RemovalsSay(active, order, now);
    forall k | 0 <= k < |order| ensures Says(ops, Remove(order[k], now), order[k], Apply(active, Remove(order[k], now)).1) {
      SaysWhatHappened(ops, Remove(order[k], now));
    }
  }
}

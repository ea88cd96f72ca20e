/** What the tracker promises about every key, over any run of operations and silences. */
module TrackerTheorems {
  import opened Base
  import opened Issues
  import opened Tracker

  // ---- Runs ----

  ghost predicate Kind(severity: string) {
    SeverityRank(severity) >= 1
  }

  /** Detectors report problems, not resolutions, as warning or critical; a restart finds the same detectors and exclusions. */
  ghost predicate Proper(active: Active, op: Op) {
    match op
    case Observe(_, issue, _, _, _, _) => issue.Some? ==> !issue.value.resolved && Kind(issue.value.severity)
    case Release(_, _, _, _) => true
    case Remove(_, _) => true
    case Restart(known, excluded) => forall k :: k in active ==> Kept(k, active[k], known, excluded)
  }

  ghost predicate Legal(ops: seq<Op>)
    decreases |ops|
  {
    ops == [] || (Legal(ops[..|ops| - 1]) && Proper(Run(map[], ops[..|ops| - 1]).0, ops[|ops| - 1]))
  }

  // ---- What is heard about a key ----

  datatype Mark = F | R

  /** The notifications about a key that receivers get, as firing or resolved. */
  function Word(outs: seq<Issue>, key: string): seq<Mark> {
    if outs == [] then []
    else
      var n := |outs| - 1;
      Word(outs[..n], key)
      + (if outs[n].key == key && !outs[n].silenced then [if outs[n].resolved then R else F] else [])
  }

  /** Every resolution comes right after a firing notification: the words of (F+ R)* F*. */
  ghost predicate Spelled(w: seq<Mark>) {
    forall i :: 0 <= i < |w| && w[i] == R ==> i > 0 && w[i - 1] == F
  }

  /** How many firing notifications were heard since the last resolution. */
  function Trail(w: seq<Mark>): nat {
    if w == [] || w[|w| - 1] == R then 0 else 1 + Trail(w[..|w| - 1])
  }

  ghost predicate Heard(active: Active, key: string) {
    key in active && active[key].notified
  }

  ghost predicate Stored(active: Active) {
    forall k :: k in active ==>
      && active[k].issue.key == k && !active[k].issue.resolved && !active[k].issue.silenced && Kind(active[k].issue.severity)
  }

  /** What was heard about a key fits what is stored about it. */
  ghost predicate Fits(active: Active, w: seq<Mark>, key: string) {
    && Spelled(w)
    && (Heard(active, key) <==> Trail(w) > 0)
    && (Heard(active, key) ==> Trail(w) <= SeverityRank(active[key].issue.severity))
  }

  lemma WordConcat(outs: seq<Issue>, o: Issue, key: string)
    ensures Word(outs + [o], key) == Word(outs, key) + Word([o], key)
    ensures Word([o], key) == if o.key == key && !o.silenced then [if o.resolved then R else F] else []
  {
    assert (outs + [o])[..|outs|] == outs;
    assert [o][..0] == [];
  }

  lemma Spell(w: seq<Mark>, m: Mark)
    requires Spelled(w) && (m == R ==> Trail(w) > 0)
    ensures Spelled(w + [m]) && Trail(w + [m]) == if m == R then 0 else Trail(w) + 1
  {
    assert (w + [m])[..|w|] == w;
  }

  lemma ApplyStored(active: Active, op: Op)
    requires Stored(active) && Proper(active, op)
    ensures Stored(Apply(active, op).0)
  {
  }

  /** An operation says at most one thing, and only about its own key. */
  lemma SaysOneThing(active: Active, op: Op)
    requires Stored(active) && Proper(active, op)
    ensures |Apply(active, op).1| <= 1
    ensures op.Restart? ==> Apply(active, op).1 == []
    ensures !op.Restart? && Apply(active, op).1 != [] ==> Apply(active, op).1[0].key == op.key
    ensures !op.Restart? ==> forall k :: k != op.key ==>
      (k in Apply(active, op).0 <==> k in active) && (k in active ==> Apply(active, op).0[k] == active[k])
  {
  }

  /** How what is heard of a key in one operation relates to its episode before and after. */
  ghost predicate Moves(active: Active, active': Active, w: seq<Mark>, key: string) {
    || (w == [] && Heard(active', key) == Heard(active, key)
        && (Heard(active, key) ==>
              SeverityRank(active[key].issue.severity) <= SeverityRank(active'[key].issue.severity)))
    || (w == [F] && Heard(active', key) && SeverityRank(active'[key].issue.severity) >= 1
        && (Heard(active, key) ==>
              SeverityRank(active[key].issue.severity) < SeverityRank(active'[key].issue.severity)))
    || (w == [R] && Heard(active, key) && key !in active')
  }

  lemma OwnKey(active: Active, op: Op)
    requires Stored(active) && Proper(active, op) && !op.Restart?
    ensures Moves(active, Apply(active, op).0, Word(Apply(active, op).1, op.key), op.key)
  {
    var out := Apply(active, op).1;
    if out != [] {
      SaysOneThing(active, op);
      WordConcat([], out[0], op.key);
      assert out == [out[0]];
    }
  }

  lemma OtherKey(active: Active, op: Op, key: string)
    requires Stored(active) && Proper(active, op) && (op.Restart? || op.key != key)
    ensures Moves(active, Apply(active, op).0, Word(Apply(active, op).1, key), key)
  {
    var out := Apply(active, op).1;
    SaysOneThing(active, op);
    if out != [] {
      WordConcat([], out[0], key);
      assert out == [out[0]];
    }
  }

  lemma MoveFits(active: Active, active': Active, w: seq<Mark>, m: seq<Mark>, key: string)
    requires Fits(active, w, key) && Moves(active, active', m, key)
    ensures Fits(active', w + m, key)
  {
    if m == [] {
      assert w + m == w;
    } else {
      Spell(w, m[0]);
    }
  }

  lemma ApplyFits(active: Active, outs: seq<Issue>, op: Op, key: string)
    requires Stored(active) && Proper(active, op) && Fits(active, Word(outs, key), key)
    ensures Fits(Apply(active, op).0, Word(outs + Apply(active, op).1, key), key)
  {
    var out := Apply(active, op).1;
    if !op.Restart? && op.key == key {
      OwnKey(active, op);
    } else {
      OtherKey(active, op, key);
    }
    MoveFits(active, Apply(active, op).0, Word(outs, key), Word(out, key), key);
    SaysOneThing(active, op);
    if out == [] {
      assert outs + out == outs && Word(outs, key) + [] == Word(outs, key);
    } else {
      assert out == [out[0]];
      WordConcat(outs, out[0], key);
    }
  }

  lemma {:induction false} RunFits(ops: seq<Op>, key: string)
    requires Legal(ops)
    ensures Stored(Run(map[], ops).0)
    ensures Fits(Run(map[], ops).0, Word(Run(map[], ops).1, key), key)
    decreases |ops|
  {
    if ops != [] {
      var n := |ops| - 1;
      RunFits(ops[..n], key);
      ApplyStored(Run(map[], ops[..n]).0, ops[n]);
      ApplyFits(Run(map[], ops[..n]).0, Run(map[], ops[..n]).1, ops[n], key);
    }
  }

  // ---- The audible life cycle ----

  /**
   Over any run, what receivers hear about a key spells (F+ R)* F*: a resolution only ever follows a
   firing notification; an episode is heard of exactly when something was heard since the last
   resolution; and it is announced at most once per severity.
   */
  lemma AudibleLifeCycle(ops: seq<Op>, key: string)
    requires Legal(ops)
    ensures var (active, outs) := Run(map[], ops);
      var w := Word(outs, key);
      && Spelled(w)
      && (key in active && active[key].notified <==> Trail(w) > 0)
      && (key in active && active[key].notified ==> Trail(w) <= SeverityRank(active[key].issue.severity))
  {
    RunFits(ops, key);
  }

  /** The operation ends the episode of the key. */
  ghost predicate Closes(active: Active, op: Op, key: string) {
    key in active && match op
                     case Observe(k, issue, _, observedAt, _, _) => k == key && issue.None? && !IsStale(active, key, issue, observedAt)
                     case Remove(k, _) => k == key
                     case Release(_, _, _, _) => false
                     case Restart(_, _) => false
  }

  /** An episode that ends gets exactly one resolution, heard if and only if its alert was. */
  lemma OneResolution(ops: seq<Op>, op: Op, key: string)
    requires Legal(ops) && Closes(Run(map[], ops).0, op, key)
    ensures var (active, outs) := Run(map[], ops);
      var (active', said) := Apply(active, op);
      && |said| == 1 && said[0].key == key && said[0].resolved && key !in active'
      && (!said[0].silenced <==> Trail(Word(outs, key)) > 0)
  {
    RunFits(ops, key);
  }

  // ---- Nothing is sent twice ----

  /** The operation reports a more severe problem than the one that is open. */
  ghost predicate Raises(active: Active, op: Op, key: string) {
    op.Observe? && op.key == key && op.issue.Some? && key in active && Escalates(active[key], op.issue.value)
  }

  ghost predicate Calm(active: Active, ops: seq<Op>, key: string)
    decreases |ops|
  {
    ops == [] || (var n := |ops| - 1;
                  var now := Run(active, ops[..n]).0;
                  Calm(active, ops[..n], key) && Proper(now, ops[n]) && !Raises(now, ops[n], key) && !Closes(now, ops[n], key))
  }

  lemma CalmStep(active: Active, op: Op, key: string)
    requires Stored(active) && Proper(active, op) && Heard(active, key)
    requires !Raises(active, op, key) && !Closes(active, op, key)
    ensures Heard(Apply(active, op).0, key)
    ensures SeverityRank(Apply(active, op).0[key].issue.severity) == SeverityRank(active[key].issue.severity)
    ensures forall i :: 0 <= i < |Apply(active, op).1| ==> Apply(active, op).1[i].key != key
  {
  }

  /**
   Once an episode was heard of, nothing more is said about it until it gets worse or ends, whatever
   silences come and go. An escalation that was silenced isn't sent later either.
   */
  lemma {:induction false} HeardOnce(active: Active, ops: seq<Op>, key: string)
    requires Stored(active) && Heard(active, key) && Calm(active, ops, key)
    ensures Stored(Run(active, ops).0) && Heard(Run(active, ops).0, key)
    ensures forall i :: 0 <= i < |Run(active, ops).1| ==> Run(active, ops).1[i].key != key
    decreases |ops|
  {
    if ops != [] {
      var n := |ops| - 1;
      HeardOnce(active, ops[..n], key);
      CalmStep(Run(active, ops[..n]).0, ops[n], key);
      ApplyStored(Run(active, ops[..n]).0, ops[n]);
    }
  }

  /** A silenced escalation of an episode that was heard of changes its severity and is logged, but nobody hears it. */
  lemma SilencedEscalation(active: Active, op: Op, key: string)
    requires Stored(active) && Proper(active, op) && Heard(active, key) && Raises(active, op, key) && op.quiet
    ensures var (active', said) := Apply(active, op);
      Heard(active', key) && active'[key].issue.severity == op.issue.value.severity && Word(said, key) == []
  {
    WordConcat([], Apply(active, op).1[0], key);
    assert Apply(active, op).1 == [Apply(active, op).1[0]];
  }

  // ---- Reconciling a whole set ----

  lemma ReportedLast(prefix: string, issues: seq<Issue>, issue: Issue, id: Issue -> string)
    ensures Reported(prefix, issues + [issue], id) == Reported(prefix, issues, id) + {prefix + id(issue)}
  {
    var all := issues + [issue];
    assert all[|issues|] == issue;
    forall k | k in Reported(prefix, issues, id) ensures k in Reported(prefix, all, id) {
      var i :| 0 <= i < |issues| && k == prefix + id(issues[i]);
      assert k == prefix + id(all[i]);
    }
  }

  lemma TrackKeys(active: Active, key: string, issue: Issue, quiet: bool, now: Time)
    ensures var after := Track(active, key, Some(issue), None, quiet, now).0;
      after.Keys == active.Keys + {key} && forall k :: k in active && k != key ==> after[k] == active[k]
  {
    hide SeverityRank;
  }

  lemma {:induction false} TrackOpsKeys(active: Active, prefix: string, issues: seq<Issue>, id: Issue -> string,
                                        quiet: Issue -> bool, now: Time)
    ensures var active' := Run(active, TrackOps(prefix, issues, id, quiet, now)).0;
      && active'.Keys == active.Keys + Reported(prefix, issues, id)
      && forall k :: k in active && k !in Reported(prefix, issues, id) ==> active'[k] == active[k]
    decreases |issues|
  {
    if issues != [] {
      hide Run, Reported, Track;
      var n := |issues| - 1;
      var middle := Run(active, TrackOps(prefix, issues[..n], id, quiet, now)).0;
      assert issues == issues[..n] + [issues[n]];
      TrackOpsKeys(active, prefix, issues[..n], id, quiet, now);
      TrackOneMore(active, prefix, issues[..n], issues[n], id, quiet, now);
      TrackKeys(middle, prefix + id(issues[n]), issues[n], quiet(issues[n]), now);
      ReportedLast(prefix, issues[..n], issues[n], id);
    } else {
      assert TrackOps(prefix, issues, id, quiet, now) == [];
      assert Reported(prefix, issues, id) == {};
    }
  }

  lemma {:induction false} CloseOpsKeys(active: Active, order: seq<string>, now: Time)
    ensures Run(active, CloseOps(order, now)).0 == active - (set k | k in order)
    decreases |order|
  {
    if order != [] {
      var n := |order| - 1;
      CloseOpsKeys(active, order[..n], now);
      assert CloseOps(order, now)[..n] == CloseOps(order[..n], now);
      assert order == order[..n] + [order[n]];
    }
  }

  /** What trackSet does. */
  ghost function Reconciled(active: Active, prefix: string, issues: seq<Issue>, id: Issue -> string, quiet: Issue -> bool,
                            order: seq<string>, now: Time): (Active, seq<Issue>)
  {
    Run(active, TrackOps(prefix, issues, id, quiet, now) + CloseOps(order, now))
  }

  /** Afterwards the open keys under the prefix are exactly the reported ones, and no other key was touched. */
  lemma SetReconciliation(active: Active, prefix: string, issues: seq<Issue>, id: Issue -> string, quiet: Issue -> bool,
                          order: seq<string>, now: Time)
    requires StaleKeys(Run(active, TrackOps(prefix, issues, id, quiet, now)).0, prefix, Reported(prefix, issues, id), order)
    ensures var active' := Reconciled(active, prefix, issues, id, quiet, order, now).0;
      && (forall k :: prefix <= k ==> (k in active' <==> exists i :: 0 <= i < |issues| && k == prefix + id(issues[i])))
      && (forall k :: !(prefix <= k) ==> (k in active' <==> k in active) && (k in active ==> active'[k] == active[k]))
  {
    var middle := Run(active, TrackOps(prefix, issues, id, quiet, now)).0;
    RunConcat(active, TrackOps(prefix, issues, id, quiet, now), CloseOps(order, now));
    TrackOpsKeys(active, prefix, issues, id, quiet, now);
    CloseOpsKeys(middle, order, now);
    assert forall i :: 0 <= i < |issues| ==> HasPrefix(prefix + id(issues[i]), prefix);
  }

  /** A problem of this severity is worse than what is open under the key, if anything, and than what was reported for it. */
  ghost predicate Beats(active: Active, prefix: string, issues: seq<Issue>, id: Issue -> string, key: string, rank: nat) {
    && (key in active ==> SeverityRank(active[key].issue.severity) < rank)
    && forall j :: 0 <= j < |issues| && prefix + id(issues[j]) == key ==> SeverityRank(issues[j].severity) < rank
  }

  /** The first of a key that isn't open is news, and so is what is worse than everything there is of its key. */
  ghost predicate IsNews(active: Active, prefix: string, before: seq<Issue>, issue: Issue, id: Issue -> string) {
    Beats(active, prefix, before, id, prefix + id(issue), SeverityRank(issue.severity))
  }

  /** What of a report is announced; a report may name a key more than once. */
  ghost function News(active: Active, prefix: string, issues: seq<Issue>, id: Issue -> string, quiet: Issue -> bool): seq<Issue> {
    if issues == [] then []
    else
      var n := |issues| - 1;
      News(active, prefix, issues[..n], id, quiet)
      + (if IsNews(active, prefix, issues[..n], issues[n], id)
         then [issues[n].(key := prefix + id(issues[n]), silenced := quiet(issues[n]))] else [])
  }

  lemma TrackOneMore(active: Active, prefix: string, issues: seq<Issue>, issue: Issue, id: Issue -> string,
                     quiet: Issue -> bool, now: Time)
    ensures var before := Run(active, TrackOps(prefix, issues, id, quiet, now));
      var after := Run(active, TrackOps(prefix, issues + [issue], id, quiet, now));
      var (active', out) := Track(before.0, prefix + id(issue), Some(issue), None, quiet(issue), now);
      after.0 == active' && after.1 == before.1 + AsList(out)
  {
    var ops := TrackOps(prefix, issues, id, quiet, now);
    var last := Observe(prefix + id(issue), Some(issue), None, None, quiet(issue), now);
    assert TrackOps(prefix, issues + [issue], id, quiet, now) == ops + [last];
    RunConcat(active, ops, [last]);
    RunOne(Run(active, ops).0, last);
  }

  lemma BeatsLast(active: Active, prefix: string, issues: seq<Issue>, issue: Issue, id: Issue -> string, key: string, rank: nat)
    ensures Beats(active, prefix, issues + [issue], id, key, rank) <==>
      Beats(active, prefix, issues, id, key, rank) && (prefix + id(issue) == key ==> SeverityRank(issue.severity) < rank)
  {
    hide SeverityRank;
    var all := issues + [issue];
    assert all[|issues|] == issue;
    if Beats(active, prefix, all, id, key, rank) {
      forall j | 0 <= j < |issues| && prefix + id(issues[j]) == key ensures SeverityRank(issues[j].severity) < rank {
        assert all[j] == issues[j];
      }
    }
  }

  /** The tracker holds, for every key it has after part of a report, the worst there was. */
  ghost predicate HoldsTheWorst(active: Active, after: Active, prefix: string, issues: seq<Issue>, id: Issue -> string,
                                key: string, rank: nat) {
    (key in after ==> SeverityRank(after[key].issue.severity) < rank) <==> Beats(active, prefix, issues, id, key, rank)
  }

  lemma NothingReported(active: Active, prefix: string, id: Issue -> string, key: string, rank: nat)
    ensures HoldsTheWorst(active, active, prefix, [], id, key, rank)
  {
  }

  lemma WorstStep(active: Active, middle: Active, prefix: string, issues: seq<Issue>, issue: Issue, id: Issue -> string,
                  quiet: bool, now: Time, key: string, rank: nat)
    requires HoldsTheWorst(active, middle, prefix, issues, id, key, rank)
    requires HoldsTheWorst(active, middle, prefix, issues, id, key, SeverityRank(issue.severity))
    ensures var after := Track(middle, prefix + id(issue), Some(issue), None, quiet, now).0;
      HoldsTheWorst(active, after, prefix, issues + [issue], id, key, rank)
  {
    hide SeverityRank;
    BeatsLast(active, prefix, issues, issue, id, key, rank);
  }

  lemma {:induction false} TrackOpsWorst(active: Active, prefix: string, issues: seq<Issue>, id: Issue -> string,
                                         quiet: Issue -> bool, now: Time, key: string, rank: nat)
    ensures HoldsTheWorst(active, Run(active, TrackOps(prefix, issues, id, quiet, now)).0, prefix, issues, id, key, rank)
    decreases |issues|
  {
    if issues == [] {
      NothingReported(active, prefix, id, key, rank);
    } else {
      hide HoldsTheWorst, Track, Run;
      var n := |issues| - 1;
      var middle := Run(active, TrackOps(prefix, issues[..n], id, quiet, now)).0;
      TrackOpsWorst(active, prefix, issues[..n], id, quiet, now, key, rank);
      TrackOpsWorst(active, prefix, issues[..n], id, quiet, now, key, SeverityRank(issues[n].severity));
      WorstStep(active, middle, prefix, issues[..n], issues[n], id, quiet(issues[n]), now, key, rank);
      TrackOneMore(active, prefix, issues[..n], issues[n], id, quiet, now);
      assert issues[..n] + [issues[n]] == issues;
    }
  }

  /** What tracking one more problem says. */
  lemma TrackSays(active: Active, middle: Active, prefix: string, issues: seq<Issue>, issue: Issue, id: Issue -> string,
                  quiet: bool, now: Time)
    requires HoldsTheWorst(active, middle, prefix, issues, id, prefix + id(issue), SeverityRank(issue.severity))
    ensures var key := prefix + id(issue);
      AsList(Track(middle, key, Some(issue), None, quiet, now).1)
        == if IsNews(active, prefix, issues, issue, id) then [issue.(key := key, silenced := quiet)] else []
  {
    hide SeverityRank, Reported, Beats;
  }

  lemma {:induction false} TrackOpsSay(active: Active, prefix: string, issues: seq<Issue>, id: Issue -> string,
                                       quiet: Issue -> bool, now: Time)
    ensures Run(active, TrackOps(prefix, issues, id, quiet, now)).1 == News(active, prefix, issues, id, quiet)
    decreases |issues|
  {
    hide Track, Run, HoldsTheWorst, IsNews, AsList;
    if issues == [] {
      NothingSaid(active, prefix, id, quiet, now);
    } else {
      var n := |issues| - 1;
      var middle := Run(active, TrackOps(prefix, issues[..n], id, quiet, now)).0;
      TrackOpsSay(active, prefix, issues[..n], id, quiet, now);
      TrackOpsWorst(active, prefix, issues[..n], id, quiet, now, prefix + id(issues[n]), SeverityRank(issues[n].severity));
      TrackSays(active, middle, prefix, issues[..n], issues[n], id, quiet(issues[n]), now);
      TrackOneMore(active, prefix, issues[..n], issues[n], id, quiet, now);
      assert issues[..n] + [issues[n]] == issues;
    }
  }

  lemma NothingSaid(active: Active, prefix: string, id: Issue -> string, quiet: Issue -> bool, now: Time)
    ensures Run(active, TrackOps(prefix, [], id, quiet, now)).1 == []
  {
  }

  ghost predicate Distinct(order: seq<string>) {
    forall i, j :: 0 <= i < j < |order| ==> order[i] != order[j]
  }

  lemma CloseLast(active: Active, order: seq<string>, key: string, now: Time)
    requires key in active && key !in order
    ensures var ops := CloseOps(order, now);
      Run(active, CloseOps(order + [key], now)).1 == Run(active, ops).1 + [Resolution(active[key], "resolved", now)]
  {
    var last := Observe(key, None, None, None, false, now);
    assert CloseOps(order + [key], now) == CloseOps(order, now) + [last];
    RunConcat(active, CloseOps(order, now), [last]);
    RunOne(Run(active, CloseOps(order, now)).0, last);
    CloseOpsKeys(active, order, now);
  }

  lemma {:induction false} CloseOpsSay(active: Active, order: seq<string>, now: Time)
    requires Distinct(order) && forall k :: k in order ==> k in active
    ensures |Run(active, CloseOps(order, now)).1| == |order|
    ensures forall i :: 0 <= i < |order| ==>
      Run(active, CloseOps(order, now)).1[i] == Resolution(active[order[i]], "resolved", now)
    decreases |order|
  {
    if order != [] {
      var n := |order| - 1;
      assert order == order[..n] + [order[n]];
      assert forall k :: k in order[..n] ==> k in order;
      CloseOpsSay(active, order[..n], now);
      CloseLast(active, order[..n], order[n], now);
    }
  }

  lemma SaidTogether(said: seq<Issue>, news: seq<Issue>, closed: seq<Issue>)
    requires said == news + closed
    ensures |said| == |news| + |closed| && said[..|news|] == news
    ensures forall i :: 0 <= i < |closed| ==> said[|news| + i] == closed[i]
  {
  }

  lemma StaleWereOpen(active: Active, middle: Active, prefix: string, reported: set<string>, order: seq<string>)
    requires StaleKeys(middle, prefix, reported, order) && middle.Keys == active.Keys + reported
    requires forall k :: k in active && k !in reported ==> middle[k] == active[k]
    ensures Distinct(order) && forall k :: k in order ==> k in middle && k in active && middle[k] == active[k]
  {
  }

  /** What is said is exactly the news, and one resolution for every problem that isn't reported anymore. */
  lemma SetReconciliationSays(active: Active, prefix: string, issues: seq<Issue>, id: Issue -> string, quiet: Issue -> bool,
                              order: seq<string>, now: Time)
    requires StaleKeys(Run(active, TrackOps(prefix, issues, id, quiet, now)).0, prefix, Reported(prefix, issues, id), order)
    ensures var out := Reconciled(active, prefix, issues, id, quiet, order, now).1;
      var news := News(active, prefix, issues, id, quiet);
      && |out| == |news| + |order| && out[..|news|] == news
      && (forall i :: 0 <= i < |order| ==>
            order[i] in active && out[|news| + i] == Resolution(active[order[i]], "resolved", now))
  {
    hide Run, News, Reported, Resolution, StaleKeys, Distinct;
    var middle := Run(active, TrackOps(prefix, issues, id, quiet, now)).0;
    RunConcat(active, TrackOps(prefix, issues, id, quiet, now), CloseOps(order, now));
    TrackOpsKeys(active, prefix, issues, id, quiet, now);
    TrackOpsSay(active, prefix, issues, id, quiet, now);
    StaleWereOpen(active, middle, prefix, Reported(prefix, issues, id), order);
    CloseOpsSay(middle, order, now);
    SaidTogether(Reconciled(active, prefix, issues, id, quiet, order, now).1, News(active, prefix, issues, id, quiet),
                 Run(middle, CloseOps(order, now)).1);
    forall i | 0 <= i < |order| ensures order[i] in active && active[order[i]] == middle[order[i]] {
      assert order[i] in order;
    }
  }

  // ---- Stale observations ----

  /** Observations are made at, or after, what is already known; so operations after t open episodes after t. */
  ghost predicate AllAfter(ops: seq<Op>, t: Time) {
    forall i :: 0 <= i < |ops| && ops[i].Observe? ==> ops[i].now > t
  }

  lemma {:induction false} OpenedAfter(active: Active, ops: seq<Op>, t: Time, key: string)
    requires AllAfter(ops, t) && key !in active
    ensures key in Run(active, ops).0 ==> Run(active, ops).0[key].since > t
    decreases |ops|
  {
    if ops != [] {
      OpenedAfter(active, ops[..|ops| - 1], t, key);
    }
  }

  /** A look at a container at time t, when its episode wasn't open, never closes an episode opened meanwhile. */
  lemma {:induction false} StaleLooksCloseNothing(active: Active, ops: seq<Op>, t: Time, key: string, current: Option<Container>, now: Time)
    requires AllAfter(ops, t) && key !in active
    ensures var later := Run(active, ops).0;
      Apply(later, Observe(key, None, current, Some(t), false, now)) == (later, [])
  {
    OpenedAfter(active, ops, t, key);
  }

  // ---- Held-back alerts ----

  function ReleasedAll(active: Active, order: seq<string>, quiet: Issue -> bool): Active {
    map k | k in active :: if k in order && !quiet(active[k].issue) then active[k].(notified := true) else active[k]
  }

  lemma ReleaseLast(active: Active, order: seq<string>, key: string, quiet: Issue -> bool, refs: map<string, Ref>, now: Time)
    requires key in active && key !in order
    requires Run(active, ReleaseOps(order, quiet, active, refs, now)).0 == ReleasedAll(active, order, quiet)
    ensures Run(active, ReleaseOps(order + [key], quiet, active, refs, now)).0 == ReleasedAll(active, order + [key], quiet)
    ensures var last := Release(key, quiet(active[key].issue), refs, now);
      && Run(active, ReleaseOps(order + [key], quiet, active, refs, now)).1
         == Run(active, ReleaseOps(order, quiet, active, refs, now)).1 + Apply(ReleasedAll(active, order, quiet), last).1
      && Apply(ReleasedAll(active, order, quiet), last).0 == ReleasedAll(active, order + [key], quiet)
  {
    var last := Release(key, quiet(active[key].issue), refs, now);
    var ops := ReleaseOps(order, quiet, active, refs, now);
    assert ReleaseOps(order + [key], quiet, active, refs, now) == ops + [last];
    RunConcat(active, ops, [last]);
    RunOne(Run(active, ops).0, last);
    ReleasedOneMore(active, order, key, quiet, refs, now);
  }

  lemma ReleasedOneMore(active: Active, order: seq<string>, key: string, quiet: Issue -> bool, refs: map<string, Ref>, now: Time)
    requires key in active && key !in order
    ensures Apply(ReleasedAll(active, order, quiet), Release(key, quiet(active[key].issue), refs, now)).0
            == ReleasedAll(active, order + [key], quiet)
  {
    assert active[key].notified ==> active[key] == active[key].(notified := true);
  }

  lemma {:induction false} ReleaseOpsDo(active: Active, order: seq<string>, quiet: Issue -> bool, refs: map<string, Ref>, now: Time)
    requires Distinct(order) && forall k :: k in order ==> k in active
    ensures Run(active, ReleaseOps(order, quiet, active, refs, now)).0 == ReleasedAll(active, order, quiet)
    decreases |order|
  {
    if order != [] {
      var n := |order| - 1;
      assert order == order[..n] + [order[n]];
      assert forall k :: k in order[..n] ==> k in order;
      ReleaseOpsDo(active, order[..n], quiet, refs, now);
      ReleaseLast(active, order[..n], order[n], quiet, refs, now);
    }
  }

  /** After the held-back alerts were looked at, every open episode has been announced or is silenced right now. */
  lemma NothingHeldBackWithoutASilence(active: Active, order: seq<string>, quiet: Issue -> bool, refs: map<string, Ref>, now: Time)
    requires Enumerates(order, active.Keys)
    ensures var active' := Run(active, ReleaseOps(order, quiet, active, refs, now)).0;
      && active'.Keys == active.Keys
      && forall k :: k in active' ==> active'[k].notified || quiet(active'[k].issue)
  {
    ReleaseOpsDo(active, order, quiet, refs, now);
  }

  // ---- Removed containers ----

  lemma RemoveOne(active: Active, order: seq<string>, key: string, now: Time)
    ensures var before := Run(active, RemoveOps(order, now));
      var after := Run(active, RemoveOps(order + [key], now));
      after.0 == Apply(before.0, Remove(key, now)).0 && after.1 == before.1 + Apply(before.0, Remove(key, now)).1
  {
    assert RemoveOps(order + [key], now) == RemoveOps(order, now) + [Remove(key, now)];
    RunConcat(active, RemoveOps(order, now), [Remove(key, now)]);
    RunOne(Run(active, RemoveOps(order, now)).0, Remove(key, now));
  }

  /** Removing containers' keys removes exactly those. */
  lemma {:induction false} RemoveOpsKeys(active: Active, order: seq<string>, now: Time)
    ensures Run(active, RemoveOps(order, now)).0 == active - (set k | k in order)
  {
    if order != [] {
      var n := |order| - 1;
      RemoveOpsKeys(active, order[..n], now);
      RemoveOne(active, order[..n], order[n], now);
      assert order == order[..n] + [order[n]];
      assert (set k | k in order) == (set k | k in order[..n]) + {order[n]};
    }
  }

  lemma RemoveLast(active: Active, order: seq<string>, key: string, now: Time)
    requires key in active && key !in order
    ensures Run(active, RemoveOps(order + [key], now)).1
         == Run(active, RemoveOps(order, now)).1 + [Resolution(active[key], "container removed", now)]
  {
    hide Run;
    RemoveOne(active, order, key, now);
    RemoveOpsKeys(active, order, now);
  }

  // ---- Restarts ----

  /** A restart leaves the tracker as it was exactly when no open episode's detector was turned off or container excluded. */
  lemma RestartLosesNothing(active: Active, known: set<string>, excluded: set<string>)
    requires Stored(active)
    ensures Apply(active, Restart(known, excluded)).0.Keys == active.Keys
            <==> forall k :: k in active ==> Kept(k, active[k], known, excluded)
    ensures forall k :: k in Apply(active, Restart(known, excluded)).0 ==>
      k in active && Apply(active, Restart(known, excluded)).0[k] == active[k].(issue := active[k].issue.(logs := []))
  {
    var active' := Apply(active, Restart(known, excluded)).0;
    forall k ensures k in active'.Keys <==> k in active && Kept(k, active[k], known, excluded) { }
  }
}

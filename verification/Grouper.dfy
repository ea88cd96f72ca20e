/** The grouper itself: its fields, and the loops that update them, against the value-level steps. */
module Grouping {
  import opened Base
  import opened Issues
  import opened Incidents
  import Steps = Incidents

  /** The incidents to flush in order of due time, each once. */
  ghost predicate Sorted(open: seq<Incident>, order: seq<nat>) {
    && (forall k :: 0 <= k < |order| ==> order[k] < |open| && open[order[k]].due.Some?)
    && (forall j, k :: 0 <= j < k < |order| ==>
          order[j] != order[k] && open[order[j]].due.value <= open[order[k]].due.value)
  }

  /** The order names places in the list, each once. */
  ghost predicate Placed(n: nat, order: seq<nat>) {
    (forall k :: 0 <= k < |order| ==> order[k] < n) && forall j, k :: 0 <= j < k < |order| ==> order[j] != order[k]
  }

  lemma OrderIsPlaced(open: seq<Incident>, limit: Option<Time>, order: seq<nat>)
    requires FlushOrder(open, limit, order)
    ensures Placed(|open|, order)
  {
  }

  /** i can go in at k: what is before isn't due later, what is behind isn't due earlier. */
  ghost predicate Belongs(open: seq<Incident>, order: seq<nat>, k: nat, i: nat)
    requires Sorted(open, order) && i < |open| && open[i].due.Some? && k <= |order|
  {
    && (forall l :: 0 <= l < k ==> open[order[l]].due.value <= open[i].due.value)
    && (forall l :: k <= l < |order| ==> open[i].due.value <= open[order[l]].due.value)
  }

  function Inserted(order: seq<nat>, k: nat, i: nat): (longer: seq<nat>)
    requires k <= |order|
    ensures |longer| == |order| + 1 && longer[k] == i
    ensures forall l :: 0 <= l < |longer| && l != k ==> longer[l] == order[if l < k then l else l - 1]
  {
    order[..k] + [i] + order[k..]
  }

  lemma InsertedMembers(order: seq<nat>, k: nat, i: nat)
    requires k <= |order|
    ensures forall x :: x in Inserted(order, k, i) <==> x in order || x == i
  {
    assert order == order[..k] + order[k..];
  }

  lemma InsertSorted(open: seq<Incident>, order: seq<nat>, k: nat, i: nat)
    requires i < |open| && open[i].due.Some? && i !in order && Sorted(open, order) && k <= |order| && Belongs(open, order, k, i)
    ensures Sorted(open, Inserted(order, k, i))
  {
    hide Inserted;
    var longer := Inserted(order, k, i);
    forall m, n | 0 <= m < n < |longer|
      ensures longer[m] != longer[n] && open[longer[m]].due.value <= open[longer[n]].due.value
    {
      var m' := if m < k then m else m - 1;
      var n' := if n < k then n else n - 1;
      if m == k {
        assert longer[n] == order[n'] && order[n'] in order;
      } else if n == k {
        assert longer[m] == order[m'] && order[m'] in order;
      } else {
        assert longer[m] == order[m'] && longer[n] == order[n'];
      }
    }
  }

  method Insert(open: seq<Incident>, order: seq<nat>, i: nat) returns (longer: seq<nat>)
    requires i < |open| && open[i].due.Some? && i !in order && Sorted(open, order)
    ensures Sorted(open, longer)
    ensures forall x :: x in longer <==> x in order || x == i
  {
    hide Inserted;
    var k := |order|;
    while k > 0 && open[order[k - 1]].due.value > open[i].due.value
      invariant 0 <= k <= |order|
      invariant forall l :: k <= l < |order| ==> open[i].due.value <= open[order[l]].due.value
    {
      k := k - 1;
    }
    InsertSorted(open, order, k, i);
    InsertedMembers(order, k, i);
    longer := Inserted(order, k, i);
  }

  class Grouper {
    const cfg: Config
    var nextID: int
    var open: seq<Incident>
    var byKey: map<string, int>
    var ready: seq<Batch>

    function State(): State
      reads this
    {
      Steps.State(nextID, open, byKey, ready)
    }

    constructor (cfg: Config)
      ensures this.cfg == cfg && State() == EMPTY
    {
      this.cfg := cfg;
      nextID, open, byKey, ready := 0, [], map[], [];
    }

    /** One alert more. */
    method Add(issue: Issue, now: Time)
      modifies this
      ensures State() == Steps.Add(cfg, old(State()), issue, now)
    {
      hide Steps.AddResolved, Steps.AddFiring, Steps.Expire, Choose;
      if !cfg.enabled {
        ready := ready + [Batch(0, false, [issue], [], "")];
        return;
      }
      Expire(now);
      if issue.resolved {
        AddResolved(issue.(incidentID := Lookup(byKey, issue.key)), now);
      } else {
        AddFiring(issue, now);
      }
    }

    method AddResolved(tagged: Issue, now: Time)
      modifies this
      ensures State() == Steps.AddResolved(cfg, old(State()), tagged, now)
    {
      if tagged.key != "" {
        byKey := byKey - {tagged.key};
      }
      var at := Find(open, tagged.incidentID);
      if at.Some? {
        open := open[at.value := Enqueue(cfg, open[at.value], tagged, now)];
      } else {
        ready := ready + [Batch(tagged.incidentID, tagged.incidentID != 0, [tagged], [], "")];
      }
    }

    method AddFiring(issue: Issue, now: Time)
      modifies this
      ensures var at := Choose(old(open), SubjectsOf(issue), IsHost(issue), |old(open)|);
        var id := if at.Some? then old(open)[at.value].id else old(nextID) + 1;
        State() == Steps.AddFiring(cfg, old(State()), issue.(incidentID := id), now)
    {
      var at := ChooseIncident(issue);
      var inc := NewIncident(nextID + 1, now);
      if at.Some? {
        inc := open[at.value];
      }
      var tagged := issue.(incidentID := inc.id);
      if at.None? {
        nextID := nextID + 1;
        open := open + [Join(cfg, inc, tagged, now)];
      } else {
        open := open[at.value := Join(cfg, inc, tagged, now)];
      }
      if tagged.key != "" {
        byKey := byKey[tagged.key := inc.id];
      }
    }

    method Expire(now: Time)
      modifies this`open
      ensures open == Steps.Expire(cfg, old(open), now)
    {
      var kept := [];
      for i := 0 to |open|
        invariant open == old(open)
        invariant kept == Steps.Expire(cfg, open[..i], now)
      {
        assert open[..i + 1][..i] == open[..i];
        if !Quiet(cfg, open[i], now) {
          kept := kept + [open[i]];
        }
      }
      assert open[..|open|] == open;
      open := kept;
    }

    method ChooseIncident(issue: Issue) returns (at: Option<nat>)
      ensures at == Choose(open, SubjectsOf(issue), IsHost(issue), |open|)
    {
      at := None;
      for i := 0 to |open|
        invariant at == Choose(open, SubjectsOf(issue), IsHost(issue), i)
      {
        if (at.None? || open[i].last > open[at.value].last) && Matches(open[i], SubjectsOf(issue), IsHost(issue)) {
          at := Some(i);
        }
      }
    }

    method Next(now: Time) returns (next: Option<Time>)
      ensures next == Steps.Next(State(), now)
    {
      if |ready| > 0 {
        return Some(now);
      }
      next := None;
      for i := 0 to |open|
        invariant next == EarliestDue(open, i)
      {
        if open[i].due.Some? && (next.None? || open[i].due.value < next.value) {
          next := open[i].due;
        }
      }
    }

    /** Takes out what may not wait beyond now. */
    method Due(now: Time) returns (out: seq<Batch>, ghost order: seq<nat>)
      modifies this
      ensures FlushOrder(old(open), Some(now), order)
      ensures out == Out(old(State()), order) && State() == Steps.Take(old(State()), order)
    {
      out, order := Take(Some(now));
    }

    /** Takes out everything. */
    method Flush() returns (out: seq<Batch>, ghost order: seq<nat>)
      modifies this
      ensures FlushOrder(old(open), None, order)
      ensures out == Out(old(State()), order) && State() == Steps.Take(old(State()), order)
    {
      out, order := Take(None);
    }

    /** The open incidents to send, sorted by due time. */
    method Pick(limit: Option<Time>) returns (order: seq<nat>)
      ensures FlushOrder(open, limit, order)
    {
      order := [];
      for i := 0 to |open|
        invariant Sorted(open, order)
        invariant forall x: nat :: x in order <==> x < i && Takes(open[x], limit)
      {
        if Takes(open[i], limit) {
          order := Insert(open, order, i);
        }
      }
      assert forall k :: 0 <= k < |order| ==> order[k] in order;
    }

    method Take(limit: Option<Time>) returns (out: seq<Batch>, ghost order: seq<nat>)
      modifies this
      ensures FlushOrder(old(open), limit, order)
      ensures out == Out(old(State()), order) && State() == Steps.Take(old(State()), order)
    {
      hide AfterSend, BatchOf, FlushOrder;
      var flush := Pick(limit);
      order := flush;
      assert Placed(|open|, flush) by { OrderIsPlaced(open, limit, flush); }
      out := ready;
      ready := [];
      for k := 0 to |flush|
        invariant nextID == old(nextID) && byKey == old(byKey) && ready == []
        invariant out == Out(old(State()), flush[..k])
        invariant open == Steps.Take(old(State()), flush[..k]).open
      {
        assert flush[..k + 1] == flush[..k] + [flush[k]];
        out := out + [BatchOf(open[flush[k]])];
        open := open[flush[k] := AfterSend(open[flush[k]])];
      }
      assert flush[..|flush|] == flush;
    }

    method SetSummary(id: int, summary: string)
      modifies this`open
      ensures State() == Steps.SetSummary(old(State()), id, summary)
    {
      var at := Find(open, id);
      if at.Some? && summary != "" {
        open := open[at.value := open[at.value].(summary := summary)];
      }
    }

    method SaveState() returns (sv: Saved)
      ensures sv == Save(State())
    {
      sv := Saved(nextID, byKey);
    }

    method LoadState(sv: Saved)
      modifies this
      ensures State() == Load(old(State()), sv)
    {
      nextID := if nextID > sv.nextID then nextID else sv.nextID;
      byKey := byKey + sv.byKey;
    }
  }
}

/** What every reachable state of the grouper satisfies, and why every critical section keeps it. */
module IncidentInvariant {
  import opened Base
  import opened Issues
  import opened Incidents
  import opened IncidentRuns

  ghost predicate IDsInRange(w: World) {
    && w.g.nextID >= 0
    && DistinctIDs(w.g.open)
    && (forall inc :: inc in w.g.open ==> 1 <= inc.id <= w.g.nextID)
    && (forall k :: k in w.g.byKey ==> 1 <= w.g.byKey[k] <= w.g.nextID)
    && (forall f :: f in w.filed ==> 0 <= f.id <= w.g.nextID)
    && (forall b :: b in w.emitted ==> 0 <= b.incidentID <= w.g.nextID)
  }

  /** What an open incident knows is what the history says about it. */
  ghost predicate Accounts(cfg: Config, filed: seq<Filed>, emitted: seq<Batch>, inc: Incident) {
    var fs := FiledIn(inc.id, filed);
    var sent := Sent(inc.id, emitted);
    && sent + inc.pending == AlertsOf(fs)
    && inc.due == (if inc.pending == [] then None else Some(fs[|sent|].at + cfg.groupWait))
    && (inc.notified || inc.pending != [])
    && inc.notified == Seen(emitted, inc.id)
    && inc.earlier == LastFew(Stripped(sent))
    && inc.subjects == Subjects(fs)
    && inc.hasHost == AnyHost(fs)
    && LastFiring(fs) == Some(inc.last)
  }

  /** A resolution whose incident is closed waits on its own; so does every alert when grouping is off. */
  ghost predicate GoodReady(cfg: Config, g: State, b: Batch) {
    && 0 <= b.incidentID <= g.nextID
    && !IsOpen(g.open, b.incidentID)
    && (b.update <==> b.incidentID != 0)
    && |b.alerts| == 1
    && (cfg.enabled ==> b.alerts[0].resolved)
    && (!cfg.enabled ==> b.incidentID == 0)
    && b.earlier == [] && b.prevSummary == ""
  }

  ghost predicate ClosedAccounts(w: World) {
    forall id {:trigger IsOpen(w.g.open, id)} :: !IsOpen(w.g.open, id) ==>
      && Sent(id, w.emitted) + Sent(id, w.g.ready) == AlertsOf(FiledIn(id, w.filed))
      && (1 <= id <= w.g.nextID ==> Seen(w.emitted, id))
  }

  ghost predicate Clocked(w: World) {
    && (forall i, j :: 0 <= i <= j < |w.filed| ==> w.filed[i].at <= w.filed[j].at)
    && (forall i :: 0 <= i < |w.filed| ==> w.filed[i].at <= w.clock && w.filed[i].after <= |w.emitted|)
  }

  /** Why a firing alert that isn't its incident's first joined it, judging by what was filed and sent before. */
  ghost predicate Belongs(cfg: Config, f: Filed, before: seq<Filed>, emitted: seq<Batch>)
    requires f.after <= |emitted|
  {
    var fs := FiledIn(f.id, before);
    LastFiring(fs).Some? ==>
      && (IsHost(f.issue) || AnyHost(fs) || Subjects(fs) * SubjectsOf(f.issue) != {})
      && (f.at - LastFiring(fs).value < cfg.window || |Sent(f.id, emitted[..f.after])| < |fs|)
  }

  ghost predicate AllBelong(cfg: Config, w: World) {
    forall n :: 0 <= n < |w.filed| && !w.filed[n].issue.resolved && w.filed[n].after <= |w.emitted| && cfg.enabled ==>
      Belongs(cfg, w.filed[n], w.filed[..n], w.emitted)
  }

  ghost predicate Inv(cfg: Config, w: World) {
    && IDsInRange(w)
    && (forall inc :: inc in w.g.open ==> Accounts(cfg, w.filed, w.emitted, inc))
    && (forall b :: b in w.g.ready ==> GoodReady(cfg, w.g, b))
    && ClosedAccounts(w)
    && TruthfulAll(w.emitted)
    && Clocked(w)
    && AllBelong(cfg, w)
    && (!cfg.enabled ==> w.g.open == [])
  }

  // ---- Closing quiet incidents ----

  lemma {:induction false} ExpireDistinct(cfg: Config, open: seq<Incident>, now: Time)
    requires DistinctIDs(open)
    ensures DistinctIDs(Expire(cfg, open, now))
    decreases |open|
  {
    if open != [] {
      var n := |open| - 1;
      assert open == open[..n] + [open[n]];
      ExpireDistinct(cfg, open[..n], now);
      var kept := Expire(cfg, open[..n], now);
      forall i | 0 <= i < |kept| ensures kept[i].id != open[n].id {
        assert kept[i] in kept;
        var j :| 0 <= j < n && open[..n][j] == kept[i];
      }
    }
  }

  function Expiring(cfg: Config, w: World, now: Time): World {
    w.(g := w.g.(open := Expire(cfg, w.g.open, now)), clock := now)
  }

  lemma ReadyOfOpen(cfg: Config, w: World, id: int)
    requires forall b :: b in w.g.ready ==> GoodReady(cfg, w.g, b)
    requires IsOpen(w.g.open, id)
    ensures Sent(id, w.g.ready) == []
  {
    forall i | 0 <= i < |w.g.ready| ensures w.g.ready[i].incidentID != id {
      assert w.g.ready[i] in w.g.ready;
    }
    SentNone(id, w.g.ready);
  }

  /** An incident that expires has sent everything filed under it. */
  lemma ExpireCloses(cfg: Config, w: World, now: Time)
    requires forall inc :: inc in w.g.open ==> Accounts(cfg, w.filed, w.emitted, inc)
    requires forall b :: b in w.g.ready ==> GoodReady(cfg, w.g, b)
    requires ClosedAccounts(w)
    ensures ClosedAccounts(Expiring(cfg, w, now))
  {
    var w' := Expiring(cfg, w, now);
    forall id | !IsOpen(w'.g.open, id)
      ensures Sent(id, w.emitted) + Sent(id, w.g.ready) == AlertsOf(FiledIn(id, w.filed))
      ensures 1 <= id <= w.g.nextID ==> Seen(w.emitted, id)
    {
      if IsOpen(w.g.open, id) {
        var inc :| inc in w.g.open && inc.id == id;
        assert inc in w'.g.open || Quiet(cfg, inc, now);
        assert Accounts(cfg, w.filed, w.emitted, inc);
        ReadyOfOpen(cfg, w, id);
        assert Sent(id, w.emitted) + [] == Sent(id, w.emitted);
      }
    }
  }

  lemma ExpireReady(cfg: Config, w: World, now: Time)
    requires forall b :: b in w.g.ready ==> GoodReady(cfg, w.g, b)
    ensures forall b :: b in w.g.ready ==> GoodReady(cfg, Expiring(cfg, w, now).g, b)
  {
    forall id | !IsOpen(w.g.open, id) ensures !IsOpen(Expiring(cfg, w, now).g.open, id) {
      assert forall inc :: inc in Expiring(cfg, w, now).g.open ==> inc in w.g.open;
    }
  }

  lemma ExpireKeeps(cfg: Config, w: World, now: Time)
    requires Inv(cfg, w) && w.clock <= now
    ensures Inv(cfg, Expiring(cfg, w, now))
  {
    ExpireDistinct(cfg, w.g.open, now);
    ExpireCloses(cfg, w, now);
    ExpireReady(cfg, w, now);
    assert Clocked(Expiring(cfg, w, now));
    assert !cfg.enabled ==> Expire(cfg, w.g.open, now) == [];
  }

  // ---- Filing an alert under an open incident ----

  lemma EnqueueAccounts(cfg: Config, filed: seq<Filed>, emitted: seq<Batch>, inc: Incident, f: Filed)
    requires Accounts(cfg, filed, emitted, inc) && f.id == inc.id && f.issue.resolved
    ensures Accounts(cfg, filed + [f], emitted, Enqueue(cfg, inc, f.issue, f.at))
  {
    FiledInAppend(inc.id, filed, f);
    AlertsOfAppend(FiledIn(inc.id, filed), f);
    SubjectsAppend(FiledIn(inc.id, filed), f);
    assert |AlertsOf(FiledIn(inc.id, filed))| == |FiledIn(inc.id, filed)|;
  }

  lemma JoinAccounts(cfg: Config, filed: seq<Filed>, emitted: seq<Batch>, inc: Incident, f: Filed)
    requires Accounts(cfg, filed, emitted, inc) && f.id == inc.id && !f.issue.resolved
    ensures Accounts(cfg, filed + [f], emitted, Join(cfg, inc, f.issue, f.at))
  {
    FiledInAppend(inc.id, filed, f);
    AlertsOfAppend(FiledIn(inc.id, filed), f);
    SubjectsAppend(FiledIn(inc.id, filed), f);
    assert |AlertsOf(FiledIn(inc.id, filed))| == |FiledIn(inc.id, filed)|;
  }

  lemma OtherAccounts(cfg: Config, filed: seq<Filed>, emitted: seq<Batch>, inc: Incident, f: Filed)
    requires Accounts(cfg, filed, emitted, inc) && f.id != inc.id
    ensures Accounts(cfg, filed + [f], emitted, inc)
  {
    FiledInAppend(inc.id, filed, f);
    assert FiledIn(inc.id, filed + [f]) == FiledIn(inc.id, filed);
  }

  lemma FileClocked(w: World, f: Filed)
    requires Clocked(w) && f.at == w.clock && f.after == |w.emitted|
    ensures Clocked(w.(filed := w.filed + [f]))
  {
  }

  lemma FileBelongs(cfg: Config, w: World, f: Filed)
    requires AllBelong(cfg, w) && Clocked(w) && f.after == |w.emitted|
    requires cfg.enabled && !f.issue.resolved ==> Belongs(cfg, f, w.filed, w.emitted)
    ensures AllBelong(cfg, w.(filed := w.filed + [f]))
  {
    var filed' := w.filed + [f];
    forall n | 0 <= n < |filed'| && !filed'[n].issue.resolved && cfg.enabled
      ensures Belongs(cfg, filed'[n], filed'[..n], w.emitted)
    {
      assert filed'[..n] == w.filed[..n];
      if n == |w.filed| { assert filed'[..n] == w.filed; }
    }
  }

  lemma SameIDs(open: seq<Incident>, c: nat, inc': Incident)
    requires c < |open| && inc'.id == open[c].id && DistinctIDs(open)
    ensures DistinctIDs(open[c := inc'])
    ensures forall id :: IsOpen(open[c := inc'], id) <==> IsOpen(open, id)
  {
    var open' := open[c := inc'];
    forall id ensures IsOpen(open', id) <==> IsOpen(open, id) {
      if IsOpen(open, id) {
        var i :| 0 <= i < |open| && open[i].id == id;
        assert open'[i].id == id && open'[i] in open';
      }
      if IsOpen(open', id) {
        var i :| 0 <= i < |open'| && open'[i].id == id;
        assert open[i].id == id && open[i] in open;
      }
    }
  }

  /** Filing f leaves the accounts of every other incident alone. */
  lemma OthersAccount(cfg: Config, w: World, c: nat, f: Filed, inc': Incident)
    requires DistinctIDs(w.g.open) && c < |w.g.open| && w.g.open[c].id == f.id
    requires forall inc :: inc in w.g.open ==> Accounts(cfg, w.filed, w.emitted, inc)
    requires Accounts(cfg, w.filed + [f], w.emitted, inc')
    ensures forall inc :: inc in w.g.open[c := inc'] ==> Accounts(cfg, w.filed + [f], w.emitted, inc)
  {
    forall inc | inc in w.g.open[c := inc'] ensures Accounts(cfg, w.filed + [f], w.emitted, inc) {
      var i :| 0 <= i < |w.g.open| && w.g.open[c := inc'][i] == inc;
      if i != c {
        assert inc == w.g.open[i] && inc in w.g.open;
        OtherAccounts(cfg, w.filed, w.emitted, inc, f);
      }
    }
  }

  /** Filing f under an incident that is open leaves the accounts of the closed ones alone. */
  lemma ClosedUntouched(w: World, f: Filed, g': State)
    requires ClosedAccounts(w) && g'.ready == w.g.ready
    requires forall id :: IsOpen(w.g.open, id) ==> IsOpen(g'.open, id)
    requires IsOpen(g'.open, f.id)
    requires forall id :: 1 <= id <= g'.nextID && !IsOpen(g'.open, id) ==> id <= w.g.nextID
    ensures ClosedAccounts(World(g', w.filed + [f], w.emitted, w.clock))
  {
    forall id | !IsOpen(g'.open, id)
      ensures !IsOpen(w.g.open, id) && FiledIn(id, w.filed + [f]) == FiledIn(id, w.filed)
    {
      FiledInAppend(id, w.filed, f);
      assert FiledIn(id, w.filed) + [] == FiledIn(id, w.filed);
    }
  }

  lemma ReadyUntouched(cfg: Config, g: State, g': State)
    requires forall b :: b in g.ready ==> GoodReady(cfg, g, b)
    requires g'.ready == g.ready && g'.nextID >= g.nextID
    requires forall id :: id <= g.nextID && IsOpen(g'.open, id) ==> IsOpen(g.open, id)
    ensures forall b :: b in g'.ready ==> GoodReady(cfg, g', b)
  {
  }

  ghost predicate KeysInRange(g: State) {
    forall k :: k in g.byKey ==> 1 <= g.byKey[k] <= g.nextID
  }

  /** What all ways of filing f under the open incident at c have in common. */
  lemma FileIntoOpen(cfg: Config, w: World, c: nat, f: Filed, inc': Incident, g': State)
    requires Inv(cfg, w) && c < |w.g.open|
    requires f.id == inc'.id == w.g.open[c].id && f.at == w.clock && f.after == |w.emitted|
    requires Accounts(cfg, w.filed + [f], w.emitted, inc')
    requires !f.issue.resolved ==> Belongs(cfg, f, w.filed, w.emitted)
    requires g' == w.g.(open := w.g.open[c := inc'], byKey := g'.byKey) && KeysInRange(g')
    ensures Inv(cfg, World(g', w.filed + [f], w.emitted, w.clock))
  {
    hide Accounts, GoodReady, FiledIn, Sent, Belongs;
    assert w.g.open[c] in w.g.open;
    SameIDs(w.g.open, c, inc');
    assert IsOpen(w.g.open, f.id);
    OthersAccount(cfg, w, c, f, inc');
    ClosedUntouched(w, f, g');
    ReadyUntouched(cfg, w.g, g');
    FileClocked(w, f);
    FileBelongs(cfg, w, f);
  }

  lemma ClosedGainsReady(w: World, f: Filed, b: Batch, g': State)
    requires ClosedAccounts(w) && !IsOpen(w.g.open, f.id)
    requires b.incidentID == f.id && b.alerts == [f.issue]
    requires g'.open == w.g.open && g'.nextID == w.g.nextID && g'.ready == w.g.ready + [b]
    ensures ClosedAccounts(World(g', w.filed + [f], w.emitted, w.clock))
  {
    forall id | !IsOpen(g'.open, id)
      ensures Sent(id, w.emitted) + Sent(id, g'.ready) == AlertsOf(FiledIn(id, w.filed + [f]))
    {
      FiledInAppend(id, w.filed, f);
      AlertsOfAppend(FiledIn(id, w.filed), f);
      assert (w.g.ready + [b])[..|w.g.ready|] == w.g.ready;
      if f.id == id {
        assert Sent(id, w.emitted) + (Sent(id, w.g.ready) + [f.issue]) == Sent(id, w.emitted) + Sent(id, w.g.ready) + [f.issue];
      } else {
        assert Sent(id, g'.ready) == Sent(id, w.g.ready);
        assert FiledIn(id, w.filed + [f]) == FiledIn(id, w.filed);
      }
    }
  }

  lemma OpenElsewhere(cfg: Config, w: World, f: Filed)
    requires !IsOpen(w.g.open, f.id)
    requires forall inc :: inc in w.g.open ==> Accounts(cfg, w.filed, w.emitted, inc)
    ensures forall inc :: inc in w.g.open ==> Accounts(cfg, w.filed + [f], w.emitted, inc)
  {
    forall inc | inc in w.g.open ensures Accounts(cfg, w.filed + [f], w.emitted, inc) {
      OtherAccounts(cfg, w.filed, w.emitted, inc, f);
    }
  }

  lemma ReadyGains(cfg: Config, g: State, g': State, b: Batch)
    requires forall r :: r in g.ready ==> GoodReady(cfg, g, r)
    requires GoodReady(cfg, g, b)
    requires g'.open == g.open && g'.nextID == g.nextID && g'.ready == g.ready + [b]
    ensures forall r :: r in g'.ready ==> GoodReady(cfg, g', r)
  {
  }

  /** Filing f when its incident isn't open, as a batch of its own. */
  lemma FileReady(cfg: Config, w: World, f: Filed, g': State)
    requires Inv(cfg, w)
    requires !IsOpen(w.g.open, f.id) && 0 <= f.id <= w.g.nextID && f.at == w.clock && f.after == |w.emitted|
    requires if cfg.enabled then f.issue.resolved else f.id == 0
    requires g' == w.g.(ready := w.g.ready + [Batch(f.id, f.id != 0, [f.issue], [], "")], byKey := g'.byKey)
    requires KeysInRange(g')
    ensures Inv(cfg, World(g', w.filed + [f], w.emitted, w.clock))
  {
    hide Accounts, FiledIn, Sent;
    OpenElsewhere(cfg, w, f);
    ReadyGains(cfg, w.g, g', Batch(f.id, f.id != 0, [f.issue], [], ""));
    ClosedGainsReady(w, f, Batch(f.id, f.id != 0, [f.issue], [], ""), g');
    FileClocked(w, f);
    FileBelongs(cfg, w, f);
  }

  lemma Unfiled(w: World, id: int)
    requires IDsInRange(w) && id > w.g.nextID
    ensures FiledIn(id, w.filed) == [] && Sent(id, w.emitted) == [] && !Seen(w.emitted, id) && !IsOpen(w.g.open, id)
  {
    FiledInNone(id, w.filed);
    forall i | 0 <= i < |w.emitted| ensures w.emitted[i].incidentID != id { assert w.emitted[i] in w.emitted; }
    SentNone(id, w.emitted);
  }

  lemma FirstAccounts(cfg: Config, filed: seq<Filed>, emitted: seq<Batch>, f: Filed)
    requires FiledIn(f.id, filed) == [] && Sent(f.id, emitted) == [] && !Seen(emitted, f.id) && !f.issue.resolved
    ensures Accounts(cfg, filed + [f], emitted, Join(cfg, NewIncident(f.id, f.at), f.issue, f.at))
  {
    FiledInAppend(f.id, filed, f);
    SubjectsAppend([], f);
    assert [] + [f] == [f];
  }

  lemma OneMoreOpen(open: seq<Incident>, inc: Incident)
    requires DistinctIDs(open) && forall i :: i in open ==> i.id != inc.id
    ensures DistinctIDs(open + [inc])
    ensures forall id :: IsOpen(open + [inc], id) <==> IsOpen(open, id) || id == inc.id
  {
    assert inc in open + [inc];
    forall id | IsOpen(open, id) ensures IsOpen(open + [inc], id) {
      var i :| i in open && i.id == id;
      assert i in open + [inc];
    }
  }

  /** Filing f as the first alert of a new incident. */
  lemma FileNew(cfg: Config, w: World, f: Filed, inc: Incident, g': State)
    requires Inv(cfg, w) && cfg.enabled
    requires f.id == w.g.nextID + 1 && f.at == w.clock && f.after == |w.emitted| && !f.issue.resolved
    requires inc == Join(cfg, NewIncident(f.id, f.at), f.issue, f.at)
    requires g' == w.g.(nextID := f.id, open := w.g.open + [inc], byKey := g'.byKey) && KeysInRange(g')
    ensures Inv(cfg, World(g', w.filed + [f], w.emitted, w.clock))
  {
    hide Accounts, GoodReady, FiledIn, Sent;
    Unfiled(w, f.id);
    FirstAccounts(cfg, w.filed, w.emitted, f);
    OpenElsewhere(cfg, w, f);
    OneMoreOpen(w.g.open, inc);
    assert LastFiring(FiledIn(f.id, w.filed)).None?;
    ClosedUntouched(w, f, g');
    ReadyUntouched(cfg, w.g, g');
    FileClocked(w, f);
    FileBelongs(cfg, w, f);
  }

  // ---- Add ----

  /** The incident a firing alert matches is recent, or still has something to send, because quiet ones were closed. */
  lemma ChosenBelongs(cfg: Config, w: World, c: nat, f: Filed)
    requires Inv(cfg, w) && c < |w.g.open| && f.id == w.g.open[c].id && f.at == w.clock && f.after == |w.emitted|
    requires Matches(w.g.open[c], SubjectsOf(f.issue), IsHost(f.issue)) && !Quiet(cfg, w.g.open[c], f.at)
    ensures Belongs(cfg, f, w.filed, w.emitted)
  {
    var inc := w.g.open[c];
    assert inc in w.g.open;
    assert Accounts(cfg, w.filed, w.emitted, inc);
    assert w.emitted[..|w.emitted|] == w.emitted;
    assert |AlertsOf(FiledIn(inc.id, w.filed))| == |FiledIn(inc.id, w.filed)|;
  }

  lemma AddResolvedKeeps(cfg: Config, w: World, f: Filed)
    requires Inv(cfg, w) && cfg.enabled
    requires f.issue.resolved && f.id == f.issue.incidentID == Lookup(w.g.byKey, f.issue.key)
    requires f.at == w.clock && f.after == |w.emitted|
    ensures Inv(cfg, World(AddResolved(cfg, w.g, f.issue, f.at), w.filed + [f], w.emitted, w.clock))
  {
    var at := Find(w.g.open, f.id);
    var g' := AddResolved(cfg, w.g, f.issue, f.at);
    assert KeysInRange(g');
    if at.Some? {
      assert w.g.open[at.value] in w.g.open;
      EnqueueAccounts(cfg, w.filed, w.emitted, w.g.open[at.value], f);
      FileIntoOpen(cfg, w, at.value, f, Enqueue(cfg, w.g.open[at.value], f.issue, f.at), g');
    } else {
      FileReady(cfg, w, f, g');
    }
  }

  lemma AddFiringKeeps(cfg: Config, w: World, f: Filed)
    requires Inv(cfg, w) && cfg.enabled && !f.issue.resolved
    requires f.id == f.issue.incidentID
    requires f.id == match Choose(w.g.open, SubjectsOf(f.issue), IsHost(f.issue), |w.g.open|)
                     case Some(c) => w.g.open[c].id
                     case None => w.g.nextID + 1
    requires forall inc :: inc in w.g.open ==> !Quiet(cfg, inc, f.at)
    requires f.at == w.clock && f.after == |w.emitted|
    ensures Inv(cfg, World(AddFiring(cfg, w.g, f.issue, f.at), w.filed + [f], w.emitted, w.clock))
  {
    hide Accounts, GoodReady, ClosedAccounts, AllBelong, Clocked, FiledIn, Sent, Belongs;
    var at := Choose(w.g.open, SubjectsOf(f.issue), IsHost(f.issue), |w.g.open|);
    var g' := AddFiring(cfg, w.g, f.issue, f.at);
    if at.Some? {
      assert w.g.open[at.value] in w.g.open;
      assert KeysInRange(g');
      ChosenBelongs(cfg, w, at.value, f);
      JoinAccounts(cfg, w.filed, w.emitted, w.g.open[at.value], f);
      FileIntoOpen(cfg, w, at.value, f, Join(cfg, w.g.open[at.value], f.issue, f.at), g');
    } else {
      assert KeysInRange(g');
      FileNew(cfg, w, f, Join(cfg, NewIncident(f.id, f.at), f.issue, f.at), g');
    }
  }

  lemma AddKeeps(cfg: Config, w: World, issue: Issue, now: Time)
    requires Inv(cfg, w) && w.clock <= now
    ensures Inv(cfg, Apply(cfg, w, AddStep(issue, now)))
  {
    var f := Filed(IDFor(cfg, w.g, issue, now), Tagged(cfg, w.g, issue, now), now, |w.emitted|);
    var w1 := Expiring(cfg, w, now);
    ExpireKeeps(cfg, w, now);
    if !cfg.enabled {
      assert w1.g == w.g;
      FileReady(cfg, w1, f, Add(cfg, w.g, issue, now));
    } else if issue.resolved {
      AddResolvedKeeps(cfg, w1, f);
    } else {
      AddFiringKeeps(cfg, w1, f);
    }
  }

  // ---- Due and Flush ----

  /** The batches of the incidents in `order`, without the ready ones. */
  function Picked(g: State, order: seq<nat>): (bs: seq<Batch>)
    requires forall k :: 0 <= k < |order| ==> order[k] < |g.open|
    ensures Out(g, order) == g.ready + bs
  {
    seq(|order|, k requires 0 <= k < |order| => BatchOf(g.open[order[k]]))
  }

  lemma PickedOpen(g: State, limit: Option<Time>, order: seq<nat>, i: nat)
    requires DistinctIDs(g.open) && FlushOrder(g.open, limit, order) && i < |g.open|
    ensures Sent(g.open[i].id, Picked(g, order)) == if i in order then g.open[i].pending else []
    ensures Seen(Picked(g, order), g.open[i].id) <==> i in order
  {
    var bs := Picked(g, order);
    var id := g.open[i].id;
    forall k | 0 <= k < |order| && order[k] != i ensures bs[k].incidentID != id {
      assert g.open[order[k]].id != id;
    }
    if i in order {
      var k :| 0 <= k < |order| && order[k] == i;
      SentOne(id, bs, k);
      assert bs[k].incidentID == id;
    } else {
      SentNone(id, bs);
    }
  }

  lemma PickedClosed(g: State, order: seq<nat>, id: int)
    requires forall k :: 0 <= k < |order| ==> order[k] < |g.open|
    requires !IsOpen(g.open, id)
    ensures Sent(id, Picked(g, order)) == []
  {
    forall k | 0 <= k < |order| ensures Picked(g, order)[k].incidentID != id {
      assert g.open[order[k]] in g.open;
    }
    SentNone(id, Picked(g, order));
  }

  lemma SeenConcat(a: seq<Batch>, b: seq<Batch>, id: int)
    ensures Seen(a + b, id) <==> Seen(a, id) || Seen(b, id)
  {
    if Seen(a, id) {
      var i :| 0 <= i < |a| && a[i].incidentID == id;
      assert (a + b)[i] == a[i];
    }
    if Seen(b, id) {
      var i :| 0 <= i < |b| && b[i].incidentID == id;
      assert (a + b)[|a| + i] == b[i];
    }
  }

  lemma ReadyUnseen(cfg: Config, g: State, i: nat)
    requires forall b :: b in g.ready ==> GoodReady(cfg, g, b)
    requires i < |g.open|
    ensures !Seen(g.ready, g.open[i].id) && Sent(g.open[i].id, g.ready) == []
  {
    assert g.open[i] in g.open;
    forall k | 0 <= k < |g.ready| ensures g.ready[k].incidentID != g.open[i].id {
      assert g.ready[k] in g.ready;
    }
    SentNone(g.open[i].id, g.ready);
  }

  lemma ThreeParts(a: seq<Batch>, b: seq<Batch>, c: seq<Batch>, id: int)
    ensures Sent(id, a + (b + c)) == Sent(id, a) + (Sent(id, b) + Sent(id, c))
    ensures Seen(a + (b + c), id) <==> Seen(a, id) || Seen(b, id) || Seen(c, id)
  {
    SentConcat(id, b, c);
    SentConcat(id, a, b + c);
    SeenConcat(b, c, id);
    SeenConcat(a, b + c, id);
  }

  lemma OutOpen(cfg: Config, w: World, limit: Option<Time>, order: seq<nat>, i: nat)
    requires DistinctIDs(w.g.open) && FlushOrder(w.g.open, limit, order) && i < |w.g.open|
    requires forall b :: b in w.g.ready ==> GoodReady(cfg, w.g, b)
    ensures Sent(w.g.open[i].id, w.emitted + Out(w.g, order))
            == Sent(w.g.open[i].id, w.emitted) + if i in order then w.g.open[i].pending else []
    ensures Seen(w.emitted + Out(w.g, order), w.g.open[i].id) <==> Seen(w.emitted, w.g.open[i].id) || i in order
  {
    PickedOpen(w.g, limit, order, i);
    ReadyUnseen(cfg, w.g, i);
    ThreeParts(w.emitted, w.g.ready, Picked(w.g, order), w.g.open[i].id);
  }

  lemma AfterSendAccounts(cfg: Config, filed: seq<Filed>, emitted: seq<Batch>, emitted': seq<Batch>, inc: Incident)
    requires Accounts(cfg, filed, emitted, inc)
    requires Sent(inc.id, emitted') == Sent(inc.id, emitted) + inc.pending && Seen(emitted', inc.id)
    ensures Accounts(cfg, filed, emitted', AfterSend(inc))
  {
    StrippedConcat(Sent(inc.id, emitted), inc.pending);
    LastFewAgain(Stripped(Sent(inc.id, emitted)), Stripped(inc.pending));
  }

  lemma NotSentAccounts(cfg: Config, filed: seq<Filed>, emitted: seq<Batch>, emitted': seq<Batch>, inc: Incident)
    requires Accounts(cfg, filed, emitted, inc)
    requires Sent(inc.id, emitted') == Sent(inc.id, emitted) && (Seen(emitted', inc.id) <==> Seen(emitted, inc.id))
    ensures Accounts(cfg, filed, emitted', inc)
  {
  }

  lemma TakeAccounts(cfg: Config, w: World, limit: Option<Time>, order: seq<nat>)
    requires DistinctIDs(w.g.open) && FlushOrder(w.g.open, limit, order)
    requires forall inc :: inc in w.g.open ==> Accounts(cfg, w.filed, w.emitted, inc)
    requires forall b :: b in w.g.ready ==> GoodReady(cfg, w.g, b)
    ensures forall inc :: inc in Take(w.g, order).open ==> Accounts(cfg, w.filed, w.emitted + Out(w.g, order), inc)
  {
    var open' := Take(w.g, order).open;
    forall inc | inc in open' ensures Accounts(cfg, w.filed, w.emitted + Out(w.g, order), inc) {
      var i :| 0 <= i < |open'| && open'[i] == inc;
      assert w.g.open[i] in w.g.open;
      OutOpen(cfg, w, limit, order, i);
      if i in order {
        AfterSendAccounts(cfg, w.filed, w.emitted, w.emitted + Out(w.g, order), w.g.open[i]);
      } else {
        assert Sent(inc.id, w.emitted) + [] == Sent(inc.id, w.emitted);
        NotSentAccounts(cfg, w.filed, w.emitted, w.emitted + Out(w.g, order), w.g.open[i]);
      }
    }
  }

  lemma TakeSameIDs(g: State, order: seq<nat>)
    requires DistinctIDs(g.open)
    ensures DistinctIDs(Take(g, order).open)
    ensures forall id :: IsOpen(Take(g, order).open, id) <==> IsOpen(g.open, id)
  {
    var open' := Take(g, order).open;
    forall id ensures IsOpen(open', id) <==> IsOpen(g.open, id) {
      if IsOpen(g.open, id) {
        var i :| 0 <= i < |g.open| && g.open[i].id == id;
        assert open'[i].id == id && open'[i] in open';
      }
      if IsOpen(open', id) {
        var i :| 0 <= i < |open'| && open'[i].id == id;
        assert g.open[i].id == id && g.open[i] in g.open;
      }
    }
  }

  lemma TakeClosed(cfg: Config, w: World, order: seq<nat>, now: Time)
    requires DistinctIDs(w.g.open) && ClosedAccounts(w)
    requires forall k :: 0 <= k < |order| ==> order[k] < |w.g.open|
    ensures ClosedAccounts(World(Take(w.g, order), w.filed, w.emitted + Out(w.g, order), now))
  {
    TakeSameIDs(w.g, order);
    var g' := Take(w.g, order);
    forall id | !IsOpen(g'.open, id)
      ensures Sent(id, w.emitted + Out(w.g, order)) + Sent(id, g'.ready) == AlertsOf(FiledIn(id, w.filed))
      ensures 1 <= id <= g'.nextID ==> Seen(w.emitted + Out(w.g, order), id)
    {
      assert !IsOpen(w.g.open, id);
      PickedClosed(w.g, order, id);
      ThreeParts(w.emitted, w.g.ready, Picked(w.g, order), id);
      assert Sent(id, w.g.ready) + [] == Sent(id, w.g.ready);
    }
  }

  lemma PickedTruthful(cfg: Config, w: World, limit: Option<Time>, order: seq<nat>, k: nat)
    requires DistinctIDs(w.g.open) && FlushOrder(w.g.open, limit, order) && k < |order|
    requires forall inc :: inc in w.g.open ==> inc.id != 0 && Accounts(cfg, w.filed, w.emitted, inc)
    requires forall b :: b in w.g.ready ==> GoodReady(cfg, w.g, b)
    ensures Truthful(w.emitted + (w.g.ready + Picked(w.g, order)[..k]), Picked(w.g, order)[k])
  {
    PickedCarries(cfg, w, limit, order, k);
  }

  /** A batch picked from an open incident tells the truth about what went before, whatever else goes out with it. */
  lemma PickedCarries(cfg: Config, w: World, limit: Option<Time>, order: seq<nat>, k: nat)
    requires DistinctIDs(w.g.open) && FlushOrder(w.g.open, limit, order) && k < |order|
    requires forall inc :: inc in w.g.open ==> inc.id != 0 && Accounts(cfg, w.filed, w.emitted, inc)
    requires forall b :: b in w.g.ready ==> GoodReady(cfg, w.g, b)
    ensures var b := Picked(w.g, order)[k];
      var before := w.emitted + (w.g.ready + Picked(w.g, order)[..k]);
      && b.incidentID != 0 && (b.update <==> Seen(before, b.incidentID)) && b.earlier == Recent(b.incidentID, before)
  {
    var inc := w.g.open[order[k]];
    var before := Picked(w.g, order)[..k];
    assert inc in w.g.open;
    forall j | 0 <= j < k ensures before[j].incidentID != inc.id {
      assert w.g.open[order[j]].id != inc.id;
    }
    SentNone(inc.id, before);
    ReadyUnseen(cfg, w.g, order[k]);
    ThreeParts(w.emitted, w.g.ready, before, inc.id);
    assert Sent(inc.id, w.emitted) + [] == Sent(inc.id, w.emitted);
  }

  /** What goes out for an open incident carries its latest past alerts; what goes out for a closed one carries none. */
  lemma OutCarries(cfg: Config, w: World, limit: Option<Time>, order: seq<nat>, i: nat)
    requires DistinctIDs(w.g.open) && FlushOrder(w.g.open, limit, order) && i < |Out(w.g, order)|
    requires forall inc :: inc in w.g.open ==> inc.id != 0 && Accounts(cfg, w.filed, w.emitted, inc)
    requires forall b :: b in w.g.ready ==> GoodReady(cfg, w.g, b)
    ensures var b := Out(w.g, order)[i];
      b.earlier == if IsOpen(w.g.open, b.incidentID) then Recent(b.incidentID, w.emitted + Out(w.g, order)[..i]) else []
  {
    hide Sent, Seen, Recent;
    var r := |w.g.ready|;
    if i < r {
      assert w.g.ready[i] in w.g.ready;
    } else {
      PickedCarries(cfg, w, limit, order, i - r);
      assert Out(w.g, order)[..i] == w.g.ready + Picked(w.g, order)[..i - r];
      assert Out(w.g, order)[i] == Picked(w.g, order)[i - r];
      assert w.g.open[order[i - r]] in w.g.open;
    }
  }

  lemma ReadyTruthful(cfg: Config, w: World, k: nat)
    requires k < |w.g.ready| && ClosedAccounts(w)
    requires forall b :: b in w.g.ready ==> GoodReady(cfg, w.g, b)
    ensures Truthful(w.emitted + w.g.ready[..k], w.g.ready[k])
  {
    var b := w.g.ready[k];
    assert b in w.g.ready;
    assert !IsOpen(w.g.open, b.incidentID);
    SeenConcat(w.emitted, w.g.ready[..k], b.incidentID);
  }

  lemma TakeTruthful(cfg: Config, w: World, limit: Option<Time>, order: seq<nat>)
    requires DistinctIDs(w.g.open) && FlushOrder(w.g.open, limit, order)
    requires forall inc :: inc in w.g.open ==> inc.id != 0 && Accounts(cfg, w.filed, w.emitted, inc)
    requires forall b :: b in w.g.ready ==> GoodReady(cfg, w.g, b)
    requires ClosedAccounts(w) && TruthfulAll(w.emitted)
    ensures TruthfulAll(w.emitted + Out(w.g, order))
  {
    var all := w.emitted + Out(w.g, order);
    var e, r := |w.emitted|, |w.g.ready|;
    forall i | 0 <= i < |all| ensures Truthful(all[..i], all[i]) {
      if i < e {
        assert all[..i] == w.emitted[..i] && all[i] == w.emitted[i];
      } else if i < e + r {
        assert all[..i] == w.emitted + w.g.ready[..i - e];
        ReadyTruthful(cfg, w, i - e);
      } else {
        assert all[..i] == w.emitted + (w.g.ready + Picked(w.g, order)[..i - e - r]);
        PickedTruthful(cfg, w, limit, order, i - e - r);
      }
    }
  }

  lemma EmitBelongs(cfg: Config, w: World, out: seq<Batch>, g': State, now: Time)
    requires AllBelong(cfg, w) && Clocked(w) && w.clock <= now
    ensures AllBelong(cfg, World(g', w.filed, w.emitted + out, now))
    ensures Clocked(World(g', w.filed, w.emitted + out, now))
  {
    forall n | 0 <= n < |w.filed| && !w.filed[n].issue.resolved && cfg.enabled
      ensures Belongs(cfg, w.filed[n], w.filed[..n], w.emitted + out)
    {
      assert (w.emitted + out)[..w.filed[n].after] == w.emitted[..w.filed[n].after];
      assert Belongs(cfg, w.filed[n], w.filed[..n], w.emitted);
    }
  }

  lemma TakeIDs(w: World, order: seq<nat>, now: Time)
    requires IDsInRange(w) && forall k :: 0 <= k < |order| ==> order[k] < |w.g.open|
    requires forall b :: b in w.g.ready ==> 0 <= b.incidentID <= w.g.nextID
    ensures IDsInRange(World(Take(w.g, order), w.filed, w.emitted + Out(w.g, order), now))
  {
    TakeSameIDs(w.g, order);
    var g' := Take(w.g, order);
    forall inc | inc in g'.open ensures 1 <= inc.id <= g'.nextID {
      var i :| 0 <= i < |g'.open| && g'.open[i] == inc;
      assert w.g.open[i] in w.g.open;
    }
    forall b | b in Picked(w.g, order) ensures 0 <= b.incidentID <= g'.nextID {
      var k :| 0 <= k < |order| && Picked(w.g, order)[k] == b;
      assert w.g.open[order[k]] in w.g.open;
    }
  }

  lemma TakeKeeps(cfg: Config, w: World, limit: Option<Time>, order: seq<nat>, now: Time)
    requires Inv(cfg, w) && w.clock <= now && FlushOrder(w.g.open, limit, order)
    ensures Inv(cfg, Apply(cfg, w, TakeStep(limit, order, now)))
  {
    TakeIDs(w, order, now);
    TakeAccounts(cfg, w, limit, order);
    TakeClosed(cfg, w, order, now);
    TakeTruthful(cfg, w, limit, order);
    EmitBelongs(cfg, w, Out(w.g, order), Take(w.g, order), now);
  }

  // ---- Summaries and restarts ----

  lemma SummaryAccounts(cfg: Config, w: World, c: nat, summary: string)
    requires c < |w.g.open|
    requires forall inc :: inc in w.g.open ==> 1 <= inc.id <= w.g.nextID && Accounts(cfg, w.filed, w.emitted, inc)
    ensures forall inc :: inc in w.g.open[c := w.g.open[c].(summary := summary)] ==>
      1 <= inc.id <= w.g.nextID && Accounts(cfg, w.filed, w.emitted, inc)
  {
    var inc := w.g.open[c];
    assert inc in w.g.open;
    assert Accounts(cfg, w.filed, w.emitted, inc.(summary := summary));
  }

  lemma SummaryClosed(w: World, g': State, now: Time)
    requires ClosedAccounts(w) && g'.ready == w.g.ready && g'.nextID == w.g.nextID
    requires forall id :: IsOpen(g'.open, id) <==> IsOpen(w.g.open, id)
    ensures ClosedAccounts(World(g', w.filed, w.emitted, now))
  {
  }

  lemma SummaryKeeps(cfg: Config, w: World, id: int, summary: string, now: Time)
    requires Inv(cfg, w) && w.clock <= now
    ensures Inv(cfg, Apply(cfg, w, SummaryStep(id, summary, now)))
  {
    var at := Find(w.g.open, id);
    var g' := SetSummary(w.g, id, summary);
    if at.Some? && summary != "" {
      var inc := w.g.open[at.value];
      SummaryAccounts(cfg, w, at.value, summary);
      SameIDs(w.g.open, at.value, inc.(summary := summary));
      ReadyUntouched(cfg, w.g, g');
      SummaryClosed(w, g', now);
    }
    assert w.emitted + [] == w.emitted;
    EmitBelongs(cfg, w, [], g', now);
  }

  lemma RestartKeeps(cfg: Config, w: World, now: Time)
    requires Inv(cfg, w) && w.clock <= now && Drained(w.g)
    ensures Inv(cfg, Apply(cfg, w, RestartStep(now)))
  {
    var w' := Apply(cfg, w, RestartStep(now));
    forall id ensures Sent(id, w.emitted) + Sent(id, w'.g.ready) == AlertsOf(FiledIn(id, w.filed))
              ensures 1 <= id <= w'.g.nextID ==> Seen(w.emitted, id)
    {
      if IsOpen(w.g.open, id) {
        var inc :| inc in w.g.open && inc.id == id;
        assert Accounts(cfg, w.filed, w.emitted, inc);
      }
    }
  }

  // ---- Every run ----

  lemma StepKeeps(cfg: Config, w: World, s: Step)
    requires Inv(cfg, w) && Allowed(cfg, w, s)
    ensures Inv(cfg, Apply(cfg, w, s))
  {
    match s
    case AddStep(issue, now) => AddKeeps(cfg, w, issue, now);
    case TakeStep(limit, order, now) => TakeKeeps(cfg, w, limit, order, now);
    case SummaryStep(id, summary, now) => SummaryKeeps(cfg, w, id, summary, now);
    case RestartStep(now) => RestartKeeps(cfg, w, now);
  }

  lemma {:induction false} RunKeeps(cfg: Config, steps: seq<Step>)
    requires Legal(cfg, steps)
    ensures Inv(cfg, Run(cfg, steps))
    decreases |steps|
  {
    if steps != [] {
      var n := |steps| - 1;
      RunKeeps(cfg, steps[..n]);
      StepKeeps(cfg, Run(cfg, steps[..n]), steps[n]);
    }
  }
}

/**
 Grouping alerts into incidents: the grouper's state as a value, and what each of its critical
 sections does to that value.
 */
module Incidents {
  import opened Base
  import opened Issues

  const MAX_EARLIER := 20

  datatype Config = Config(enabled: bool, groupWait: Time, window: Time)

  /** What goes out in one message. Number 0 stands for no incident. */
  datatype Batch = Batch(incidentID: int, update: bool, alerts: seq<Issue>, earlier: seq<Issue>, prevSummary: string) {
    predicate Firing() {
      exists i :: 0 <= i < |alerts| && !alerts[i].resolved
    }
  }

  /** What two alerts have to share to be about the same problem. */
  datatype Subject = OfContainer(name: string) | OfProject(name: string)

  datatype Incident = Incident(
    id: int,
    subjects: set<Subject>,
    hasHost: bool,
    last: Time,            // last firing alert
    notified: bool,
    pending: seq<Issue>,
    due: Option<Time>,     // None = nothing pending
    earlier: seq<Issue>,
    summary: string)

  datatype State = State(nextID: int, open: seq<Incident>, byKey: map<string, int>, ready: seq<Batch>)

  const EMPTY := State(0, [], map[], [])

  // ---- What an alert is about ----

  predicate IsHost(issue: Issue) {
    issue.container.name == ""
  }

  function SubjectsOf(issue: Issue): set<Subject> {
    if IsHost(issue) then {}
    else {OfContainer(issue.container.name)}
         + (if issue.container.Project() != "" then {OfProject(issue.container.Project())} else {})
  }

  predicate Matches(inc: Incident, subjects: set<Subject>, isHost: bool) {
    isHost || inc.hasHost || inc.subjects * subjects != {}
  }

  // ---- The list of open incidents ----

  predicate Quiet(cfg: Config, inc: Incident, now: Time) {
    inc.due.None? && now - inc.last >= cfg.window
  }

  /** The incidents that aren't closed: something is unsent, or their last firing alert is within the window. */
  function Expire(cfg: Config, open: seq<Incident>, now: Time): (kept: seq<Incident>)
    ensures forall inc :: inc in kept <==> inc in open && !Quiet(cfg, inc, now)
  {
    if open == [] then []
    else
      var n := |open| - 1;
      assert open == open[..n] + [open[n]];
      Expire(cfg, open[..n], now) + (if Quiet(cfg, open[n], now) then [] else [open[n]])
  }

  ghost predicate DistinctIDs(open: seq<Incident>) {
    forall i, j :: 0 <= i < j < |open| ==> open[i].id != open[j].id
  }

  ghost predicate IsOpen(open: seq<Incident>, id: int) {
    exists inc :: inc in open && inc.id == id
  }

  /** The position of the open incident `id`. */
  function Find(open: seq<Incident>, id: int): (at: Option<nat>)
    ensures at.Some? ==> at.value < |open| && open[at.value].id == id
    ensures id != 0 && at.None? ==> !IsOpen(open, id)
    ensures id == 0 ==> at.None?
    decreases |open|
  {
    if id == 0 || open == [] then None
    else if open[0].id == id then Some(0)
    else
      assert open == [open[0]] + open[1..];
      match Find(open[1..], id)
      case None => None
      case Some(k) => Some(k + 1)
  }

  /** The incident a firing alert joins, among the first n: the most recently active match, the first of several. */
  function Choose(open: seq<Incident>, subjects: set<Subject>, isHost: bool, n: nat): (at: Option<nat>)
    requires n <= |open|
    ensures at.Some? ==> at.value < n && Matches(open[at.value], subjects, isHost)
    ensures at.None? ==> forall k :: 0 <= k < n ==> !Matches(open[k], subjects, isHost)
    ensures at.Some? ==> forall k :: 0 <= k < n && Matches(open[k], subjects, isHost) ==>
      open[k].last <= open[at.value].last && (k < at.value ==> open[k].last < open[at.value].last)
  {
    if n == 0 then None
    else
      var best := Choose(open, subjects, isHost, n - 1);
      if (best.None? || open[n - 1].last > open[best.value].last) && Matches(open[n - 1], subjects, isHost) then Some(n - 1)
      else best
  }

  // ---- Add ----

  function Lookup(byKey: map<string, int>, key: string): int {
    if key in byKey then byKey[key] else 0
  }

  function Enqueue(cfg: Config, inc: Incident, issue: Issue, now: Time): Incident {
    inc.(pending := inc.pending + [issue], due := if inc.due.None? then Some(now + cfg.groupWait) else inc.due)
  }

  /** The firing alert `issue` becomes part of `inc`. */
  function Join(cfg: Config, inc: Incident, issue: Issue, now: Time): Incident {
    Enqueue(cfg, inc.(last := now, subjects := inc.subjects + SubjectsOf(issue), hasHost := inc.hasHost || IsHost(issue)),
            issue, now)
  }

  function NewIncident(id: int, now: Time): Incident {
    Incident(id, {}, false, now, false, [], None, [], "")
  }

  /** The incident an alert is filed under, 0 for none. */
  function IDFor(cfg: Config, g: State, issue: Issue, now: Time): int {
    if !cfg.enabled then 0
    else if issue.resolved then Lookup(g.byKey, issue.key)
    else
      var open := Expire(cfg, g.open, now);
      match Choose(open, SubjectsOf(issue), IsHost(issue), |open|)
      case Some(c) => open[c].id
      case None => g.nextID + 1
  }

  /** The alert as it is filed. */
  function Tagged(cfg: Config, g: State, issue: Issue, now: Time): Issue {
    if cfg.enabled then issue.(incidentID := IDFor(cfg, g, issue, now)) else issue
  }

  function Add(cfg: Config, g: State, issue: Issue, now: Time): State {
    var tagged := Tagged(cfg, g, issue, now);
    if !cfg.enabled then g.(ready := g.ready + [Batch(0, false, [issue], [], "")])
    else if issue.resolved then AddResolved(cfg, g.(open := Expire(cfg, g.open, now)), tagged, now)
    else AddFiring(cfg, g.(open := Expire(cfg, g.open, now)), tagged, now)
  }

  function AddResolved(cfg: Config, g: State, tagged: Issue, now: Time): State {
    var g' := g.(byKey := if tagged.key != "" then g.byKey - {tagged.key} else g.byKey);
    match Find(g.open, tagged.incidentID)
    case Some(c) => g'.(open := g.open[c := Enqueue(cfg, g.open[c], tagged, now)])
    case None => g'.(ready := g.ready + [Batch(tagged.incidentID, tagged.incidentID != 0, [tagged], [], "")])
  }

  function AddFiring(cfg: Config, g: State, tagged: Issue, now: Time): State {
    var g' := g.(byKey := if tagged.key != "" then g.byKey[tagged.key := tagged.incidentID] else g.byKey);
    match Choose(g.open, SubjectsOf(tagged), IsHost(tagged), |g.open|)
    case Some(c) => g'.(open := g.open[c := Join(cfg, g.open[c], tagged, now)])
    case None => g'.(nextID := g.nextID + 1, open := g.open + [Join(cfg, NewIncident(g.nextID + 1, now), tagged, now)])
  }

  // ---- Next, Due, Flush ----

  /** The earliest due time among the first n incidents. */
  function EarliestDue(open: seq<Incident>, n: nat): (next: Option<Time>)
    requires n <= |open|
    ensures next.None? <==> forall k :: 0 <= k < n ==> open[k].due.None?
    ensures next.Some? ==> forall k :: 0 <= k < n && open[k].due.Some? ==> next.value <= open[k].due.value
    ensures next.Some? ==> exists k :: 0 <= k < n && open[k].due == next
  {
    if n == 0 then None
    else
      var best := EarliestDue(open, n - 1);
      if open[n - 1].due.Some? && (best.None? || open[n - 1].due.value < best.value) then open[n - 1].due else best
  }

  /** The moment the dispatcher has to come back, if any. */
  function Next(g: State, now: Time): Option<Time> {
    if |g.ready| > 0 then Some(now) else EarliestDue(g.open, |g.open|)
  }

  /** Everything pending, or only what is due at `limit`. */
  predicate Takes(inc: Incident, limit: Option<Time>) {
    inc.due.Some? && (limit.None? || inc.due.value <= limit.value)
  }

  /** `order` lists the incidents to send, each once, by due time; ties come in any order, as the sort isn't stable. */
  ghost predicate FlushOrder(open: seq<Incident>, limit: Option<Time>, order: seq<nat>) {
    && (forall k :: 0 <= k < |order| ==> order[k] < |open| && Takes(open[order[k]], limit))
    && (forall i :: 0 <= i < |open| && Takes(open[i], limit) ==> i in order)
    && (forall j, k :: 0 <= j < k < |order| ==>
          order[j] != order[k] && open[order[j]].due.value <= open[order[k]].due.value)
  }

  function BatchOf(inc: Incident): Batch {
    Batch(inc.id, inc.notified, inc.pending, inc.earlier, inc.summary)
  }

  /** The firing alerts of s, without logs. */
  function Stripped(s: seq<Issue>): seq<Issue> {
    if s == [] then []
    else
      var n := |s| - 1;
      Stripped(s[..n]) + (if s[n].resolved then [] else [s[n].(logs := [])])
  }

  function LastFew(s: seq<Issue>): seq<Issue> {
    if |s| > MAX_EARLIER then s[|s| - MAX_EARLIER..] else s
  }

  function AfterSend(inc: Incident): Incident {
    inc.(earlier := LastFew(inc.earlier + Stripped(inc.pending)), pending := [], due := None, notified := true)
  }

  function Out(g: State, order: seq<nat>): seq<Batch>
    requires forall k :: 0 <= k < |order| ==> order[k] < |g.open|
  {
    g.ready + seq(|order|, k requires 0 <= k < |order| => BatchOf(g.open[order[k]]))
  }

  function Take(g: State, order: seq<nat>): State {
    g.(ready := [], open := seq(|g.open|, i requires 0 <= i < |g.open| => if i in order then AfterSend(g.open[i]) else g.open[i]))
  }

  function SetSummary(g: State, id: int, summary: string): State {
    match Find(g.open, id)
    case Some(c) => if summary != "" then g.(open := g.open[c := g.open[c].(summary := summary)]) else g
    case None => g
  }

  // ---- Save and load ----

  datatype Saved = Saved(nextID: int, byKey: map<string, int>)

  function Save(g: State): Saved {
    Saved(g.nextID, g.byKey)
  }

  function Load(g: State, sv: Saved): State {
    g.(nextID := if g.nextID > sv.nextID then g.nextID else sv.nextID, byKey := g.byKey + sv.byKey)
  }
}

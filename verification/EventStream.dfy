/**
 Resuming the daemon's event stream. The daemon keeps a log; nodux replays it from where it left off,
 inclusive, over connections that drop and restarts of nodux itself. A run interleaves the daemon
 appending to its log with nodux connecting, handling, saving, dying and starting.
 */
module EventStream {
  import opened Base
  import opened Events
  import opened Keys

  const MAX_REPLAY: Time := 3600 * 1_000_000_000

  /** A log entry; `event` is what the detectors get to see, None for an excluded container. */
  datatype Entry = Entry(time: Time, action: string, actor: string, event: Option<ContainerEvent>)

  function Key(e: Entry): string {
    e.action + "/" + e.actor
  }

  // ---- The stream position ----

  /** evSince, evLast and evHandled: where to resume, the last timestamp handled, and the events handled at it. */
  datatype Position = Position(since: Time, last: Option<Time>, seen: set<string>)

  /** Whether an event the daemon sends is one that hasn't been handled. */
  predicate IsNew(p: Position, e: Entry) {
    p.last.None? || e.time > p.last.value || (e.time == p.last.value && Key(e) !in p.seen)
  }

  function Advance(p: Position, e: Entry): Position {
    if !IsNew(p, e) then p
    else if p.last == Some(e.time) then Position(e.time, p.last, p.seen + {Key(e)})
    else Position(e.time, Some(e.time), {Key(e)})
  }

  datatype SavedPosition = SavedPosition(since: Time, handled: set<string>)

  function Save(p: Position): SavedPosition {
    SavedPosition(p.since, if p.last == Some(p.since) then p.seen else {})
  }

  function Restore(saved: Option<SavedPosition>, now: Time): Position {
    if saved.None? || saved.value.since > now then Position(now, None, {})
    else if now - saved.value.since > MAX_REPLAY then Position(now - MAX_REPLAY, None, {})
    else Position(saved.value.since, Some(saved.value.since), saved.value.handled)
  }

  /** The event loop's own fields. */
  class EventLoop {
    var evSince: Time
    var evLast: Option<Time>
    var evHandled: set<string>

    function Pos(): Position
      reads this
    {
      Position(evSince, evLast, evHandled)
    }

    /** Where to start: what was saved, unless it's missing, from the future or too old. */
    constructor (saved: Option<SavedPosition>, now: Time)
      ensures Pos() == Restore(saved, now)
    {
      evSince, evLast, evHandled := now, None, {};
      if saved.Some? {
        var since := saved.value.since;
        if since > now {
        } else if now - since > MAX_REPLAY {
          evSince := now - MAX_REPLAY;
        } else {
          evSince, evLast := since, Some(since);
          evHandled := saved.value.handled;
        }
      }
    }

    /** One event off the stream; `handle` says whether it goes on to the detectors. */
    method OnEvent(e: Entry) returns (handle: bool)
      modifies this
      ensures handle == IsNew(old(Pos()), e) && Pos() == Advance(old(Pos()), e)
    {
      var key := Key(e);
      if evLast.Some? && e.time < evLast.value {
        return false;
      } else if evLast.Some? && e.time == evLast.value {
        if key in evHandled {
          return false;
        }
      } else {
        evLast := Some(e.time);
        evHandled := {};
      }
      evHandled := evHandled + {key};
      evSince := e.time;
      handle := true;
    }

    method SavePosition() returns (saved: SavedPosition)
      ensures saved == Save(Pos())
    {
      saved := SavedPosition(evSince, {});
      if evLast == Some(evSince) {
        saved := saved.(handled := evHandled);
      }
    }
  }

  // ---- Runs ----

  /** Since when, from which detector state, and which events a line of processes has handled, each resuming the last. */
  datatype Lineage<M> = Lineage(from: Time, base: nat, start: M, handled: seq<Entry>)

  datatype Disk<M> = Disk(saved: SavedPosition, memory: M, line: Lineage<M>)

  datatype World<M> = World(
    log: seq<Entry>,        // the daemon's
    now: Time,
    up: bool,
    pos: Position,
    conn: Option<nat>,      // the next log entry the open connection sends
    memory: M,              // the detectors'
    disk: Option<Disk<M>>,
    line: Lineage<M>,       // history
    trace: seq<Entry>)      // everything any process ever handled

  datatype Step = Tick(to: Time) | Append(e: Entry) | Connect | Deliver | Drop | SaveState | Die | Boot

  /** How the detectors' state changes with an event, and where it starts. */
  datatype Detectors<!M> = Detectors(init: M, step: (M, Entry) -> M)

  function Fold<M>(d: Detectors<M>, s: M, es: seq<Entry>): M {
    if es == [] then s else d.step(Fold(d, s, es[..|es| - 1]), es[|es| - 1])
  }

  ghost predicate Sorted(log: seq<Entry>) {
    forall i, j :: 0 <= i < j < |log| ==> log[i].time <= log[j].time
  }

  /** Timestamps don't go back, and no two events at one timestamp have the same action and container. */
  ghost predicate Ordered(log: seq<Entry>) {
    && Sorted(log)
    && (forall i :: 0 <= i < |log| ==> Slashless(log[i].action))
    && (forall i, j :: 0 <= i < j < |log| && log[i].time == log[j].time ==>
          !(log[i].action == log[j].action && log[i].actor == log[j].actor))
  }

  /** The first entry a replay from t sends. */
  function FirstAt(log: seq<Entry>, t: Time): (i: nat)
    ensures i <= |log| && (forall j :: 0 <= j < i ==> log[j].time < t)
    ensures i < |log| ==> log[i].time >= t
  {
    if log == [] || log[0].time >= t then 0 else 1 + FirstAt(log[1..], t)
  }

  lemma FirstAtMost(log: seq<Entry>, t: Time, k: nat)
    requires k < |log| && log[k].time >= t
    ensures FirstAt(log, t) <= k
  {
  }

  lemma FirstAtLeast(log: seq<Entry>, t: Time, k: nat)
    requires k <= |log| && forall j :: 0 <= j < k ==> log[j].time < t
    ensures FirstAt(log, t) >= k
  {
  }

  lemma FirstAtSplits(log: seq<Entry>, t: Time)
    requires Sorted(log)
    ensures forall i :: 0 <= i < |log| ==> (log[i].time >= t <==> FirstAt(log, t) <= i)
  {
    var k := FirstAt(log, t);
    forall i | k <= i < |log| ensures log[i].time >= t {
      assert i == k || log[k].time <= log[i].time;
    }
  }

  /** An event stamped before a process began to follow the log comes into it before that. */
  ghost predicate NotLate<M>(w: World<M>, e: Entry) {
    && (w.up ==> w.line.from <= e.time)
    && (w.disk.Some? ==> w.disk.value.line.from <= e.time)
  }

  /** The clock that nodux reads may jump, and needn't agree with the daemon's. */
  ghost predicate Can<M>(w: World<M>, s: Step) {
    match s
    case Tick(_) => true
    case Append(e) => Ordered(w.log + [e]) && NotLate(w, e)
    case Connect => w.up && w.conn.None?
    case Deliver => w.up && w.conn.Some? && w.conn.value < |w.log|
    case Drop => true
    case SaveState => w.up
    case Die => w.up
    case Boot => !w.up
  }

  function Next<M>(d: Detectors<M>, w: World<M>, s: Step): World<M>
    requires s.Deliver? ==> w.conn.Some? && w.conn.value < |w.log|
  {
    match s
    case Tick(to) => w.(now := to)
    case Append(e) => w.(log := w.log + [e])
    case Connect => w.(conn := Some(FirstAt(w.log, w.pos.since)))
    case Deliver =>
      var e := w.log[w.conn.value];
      var w' := w.(conn := Some(w.conn.value + 1), pos := Advance(w.pos, e));
      if !IsNew(w.pos, e) then w'
      else w'.(memory := d.step(w.memory, e), line := w.line.(handled := w.line.handled + [e]), trace := w.trace + [e])
    case Drop => w.(conn := None)
    case SaveState => w.(disk := Some(Disk(Save(w.pos), w.memory, w.line)))
    case Die => w.(up := false, conn := None)
    case Boot => Booted(d, w)
  }

  /** A process starts: it loads what was saved, and resumes if that is recent enough. */
  function Booted<M>(d: Detectors<M>, w: World<M>): World<M> {
    var saved := if w.disk.Some? then Some(w.disk.value.saved) else None;
    var pos := Restore(saved, w.now);
    var memory := if w.disk.Some? then w.disk.value.memory else d.init;
    w.(up := true, conn := None, pos := pos, memory := memory,
       line := if Resumes(w) then w.disk.value.line else Lineage(pos.since, FirstAt(w.log, pos.since), memory, []))
  }

  /** The guards restore checks before it resumes the stream where it was. */
  predicate Resumes<M>(w: World<M>) {
    w.disk.Some? && w.disk.value.saved.since <= w.now && w.now - w.disk.value.saved.since <= MAX_REPLAY
  }

  function Initial<M>(d: Detectors<M>): World<M> {
    World([], 0, false, Position(0, None, {}), None, d.init, None, Lineage(0, 0, d.init, []), [])
  }

  ghost predicate Legal<M>(d: Detectors<M>, steps: seq<Step>)
    decreases |steps|, 0
  {
    if steps == [] then true
    else
      var n := |steps| - 1;
      Legal(d, steps[..n]) && Can(Run(d, steps[..n]), steps[n])
  }

  ghost function Run<M>(d: Detectors<M>, steps: seq<Step>): World<M>
    requires Legal(d, steps)
    decreases |steps|, 1
  {
    if steps == [] then Initial(d)
    else
      var n := |steps| - 1;
      Next(d, Run(d, steps[..n]), steps[n])
  }

  // ---- What every reachable world satisfies ----

  /** The next log entry a line of processes has to handle. */
  function At<M>(line: Lineage<M>): nat {
    line.base + |line.handled|
  }

  /** What was handled is the log from the base on, without a gap or a repeat. */
  ghost predicate Follows<M>(line: Lineage<M>, log: seq<Entry>) {
    && At(line) <= |log| && line.handled == log[line.base..At(line)]
    && (forall i :: 0 <= i < line.base ==> log[i].time < line.from)
    && (forall i :: line.base <= i < |log| ==> log[i].time >= line.from)
  }

  /** The position describes the end of what was handled. */
  ghost predicate Describes<M>(p: Position, line: Lineage<M>, log: seq<Entry>)
    requires At(line) <= |log|
  {
    if line.handled == [] then
      p.since == line.from && (p.last.None? || p.last == Some(line.from)) && p.seen == {}
    else
      && p.since == log[At(line) - 1].time && p.last == Some(p.since)
      && (forall k :: k in p.seen <==> HandledKey(line, log, p.since, k))
  }

  /** An event with this key was handled at time t. */
  ghost predicate HandledKey<M>(line: Lineage<M>, log: seq<Entry>, t: Time, k: string)
    requires At(line) <= |log|
  {
    exists i :: line.base <= i < At(line) && log[i].time == t && Key(log[i]) == k
  }

  /** A connection has sent nothing that is still to be handled; what it sends again is what was handled last. */
  ghost predicate Synced<M>(conn: Option<nat>, p: Position, line: Lineage<M>, log: seq<Entry>)
    requires At(line) <= |log|
  {
    conn.Some? ==> line.base <= conn.value <= At(line)
                   && forall j :: conn.value <= j < At(line) ==> log[j].time == p.since
  }

  ghost predicate DiskGood<M>(d: Detectors<M>, disk: Disk<M>, log: seq<Entry>) {
    && Follows(disk.line, log)
    && Describes(Position(disk.saved.since, Some(disk.saved.since), disk.saved.handled), disk.line, log)
    && disk.memory == Fold(d, disk.line.start, disk.line.handled)
  }

  ghost predicate Inv<M>(d: Detectors<M>, w: World<M>) {
    && Ordered(w.log)
    && (w.up ==>
          && Follows(w.line, w.log) && Describes(w.pos, w.line, w.log) && Synced(w.conn, w.pos, w.line, w.log)
          && w.memory == Fold(d, w.line.start, w.line.handled))
    && (w.disk.Some? ==> DiskGood(d, w.disk.value, w.log))
  }

  /** Joined with a slash, different pairs give different keys. */
  lemma KeysDiffer(a: Entry, b: Entry)
    requires Slashless(a.action) && Slashless(b.action)
    ensures Key(a) == Key(b) ==> a.action == b.action && a.actor == b.actor
  {
    CutJoined(a.action, a.actor);
    CutJoined(b.action, b.actor);
  }

  lemma AppendFollows<M>(line: Lineage<M>, log: seq<Entry>, e: Entry)
    requires Follows(line, log) && line.from <= e.time
    ensures Follows(line, log + [e])
  {
    assert (log + [e])[line.base..At(line)] == log[line.base..At(line)];
  }

  lemma AppendDescribes<M>(p: Position, line: Lineage<M>, log: seq<Entry>, e: Entry)
    requires At(line) <= |log| && Describes(p, line, log)
    ensures Describes(p, line, log + [e])
  {
    var longer := log + [e];
    forall k ensures HandledKey(line, log, p.since, k) <==> HandledKey(line, longer, p.since, k) {
      if HandledKey(line, log, p.since, k) {
        var i :| line.base <= i < At(line) && log[i].time == p.since && Key(log[i]) == k;
        assert longer[i] == log[i];
      }
    }
  }

  lemma AppendKeeps<M>(d: Detectors<M>, w: World<M>, e: Entry)
    requires Inv(d, w) && Can(w, Append(e))
    ensures Inv(d, Next(d, w, Append(e)))
  {
    if w.up {
      AppendFollows(w.line, w.log, e);
      AppendDescribes(w.pos, w.line, w.log, e);
    }
    if w.disk.Some? {
      var disk := w.disk.value;
      AppendFollows(disk.line, w.log, e);
      AppendDescribes(Position(disk.saved.since, Some(disk.saved.since), disk.saved.handled), disk.line, w.log, e);
    }
  }

  lemma ReplayStartFresh<M>(p: Position, line: Lineage<M>, log: seq<Entry>)
    requires Sorted(log) && Follows(line, log) && Describes(p, line, log) && line.handled == []
    ensures FirstAt(log, p.since) == At(line)
  {
    FirstAtLeast(log, p.since, At(line));
    if At(line) < |log| {
      assert log[At(line)].time >= line.from;
      FirstAtMost(log, p.since, At(line));
    }
  }

  /** A replay starts at, or before, the next entry to handle, and everything before it is from the last timestamp. */
  lemma ReplayStart<M>(p: Position, line: Lineage<M>, log: seq<Entry>)
    requires Sorted(log) && Follows(line, log) && Describes(p, line, log)
    ensures Synced(Some(FirstAt(log, p.since)), p, line, log)
  {
    hide HandledKey, FirstAt;
    if line.handled == [] {
      ReplayStartFresh(p, line, log);
    } else {
      var at := At(line);
      FirstAtMost(log, p.since, at - 1);
      FirstAtLeast(log, p.since, line.base);
      FirstAtSplits(log, p.since);
      forall j | FirstAt(log, p.since) <= j < at ensures log[j].time == p.since {
        assert j == at - 1 || log[j].time <= log[at - 1].time;
      }
    }
  }

  lemma ConnectKeeps<M>(d: Detectors<M>, w: World<M>)
    requires Inv(d, w) && Can(w, Connect)
    ensures Inv(d, Next(d, w, Connect))
  {
    ReplayStart(w.pos, w.line, w.log);
  }

  /** An entry that is sent again after a reconnect is recognised. */
  lemma ReplayIsRecognised<M>(d: Detectors<M>, w: World<M>)
    requires Inv(d, w) && Can(w, Deliver) && w.conn.value < At(w.line)
    ensures !IsNew(w.pos, w.log[w.conn.value])
  {
    var i := w.conn.value;
    assert w.log[i].time == w.pos.since;
    assert Key(w.log[i]) in w.pos.seen;
  }

  /** An entry that wasn't handled is never mistaken for one that was. */
  lemma NextIsNew<M>(d: Detectors<M>, w: World<M>)
    requires Inv(d, w) && Can(w, Deliver) && w.conn.value == At(w.line)
    ensures IsNew(w.pos, w.log[w.conn.value])
  {
    var at := At(w.line);
    var e := w.log[at];
    if w.line.handled != [] {
      assert w.log[at - 1].time <= e.time;
      if e.time == w.pos.since && Key(e) in w.pos.seen {
        var i :| w.line.base <= i < at && w.log[i].time == w.pos.since && Key(w.log[i]) == Key(e);
        KeysDiffer(w.log[i], e);
      }
    }
  }

  lemma OneMoreFollows<M>(line: Lineage<M>, log: seq<Entry>)
    requires Follows(line, log) && At(line) < |log|
    ensures Follows(line.(handled := line.handled + [log[At(line)]]), log)
  {
    assert log[line.base..At(line) + 1] == log[line.base..At(line)] + [log[At(line)]];
  }

  /** The keys handled at the time of one more entry, which isn't older than the last one. */
  lemma OneMoreKey<M>(line: Lineage<M>, log: seq<Entry>, k: string)
    requires At(line) < |log| && Sorted(log)
    ensures var at := At(line);
      var line' := line.(handled := line.handled + [log[at]]);
      HandledKey(line', log, log[at].time, k) <==>
        k == Key(log[at]) || (line.handled != [] && log[at - 1].time == log[at].time && HandledKey(line, log, log[at].time, k))
  {
    hide Key;
    var at := At(line);
    var line' := line.(handled := line.handled + [log[at]]);
    if k == Key(log[at]) {
      assert line.base <= at < At(line') && log[at].time == log[at].time && Key(log[at]) == k;
    }
    if HandledKey(line', log, log[at].time, k) && k != Key(log[at]) {
      var i :| line.base <= i < At(line') && log[i].time == log[at].time && Key(log[i]) == k;
      assert i <= at - 1;
      assert log[i].time <= log[at - 1].time <= log[at].time;
    }
  }

  lemma AdvanceDescribes<M>(p: Position, line: Lineage<M>, log: seq<Entry>)
    requires Follows(line, log) && Describes(p, line, log) && At(line) < |log|
    requires IsNew(p, log[At(line)]) && Ordered(log)
    ensures Follows(line.(handled := line.handled + [log[At(line)]]), log)
    ensures Describes(Advance(p, log[At(line)]), line.(handled := line.handled + [log[At(line)]]), log)
  {
    hide Key, HandledKey, Ordered;
    var at := At(line);
    var e := log[at];
    var p' := Advance(p, e);
    OneMoreFollows(line, log);
    assert Sorted(log) by { SortedIs(log); }
    forall k ensures k in p'.seen <==> HandledKey(line.(handled := line.handled + [e]), log, e.time, k) {
      OneMoreKey(line, log, k);
    }
  }

  lemma SortedIs(log: seq<Entry>)
    requires Ordered(log)
    ensures Sorted(log)
  {
  }

  lemma NotNewStays(p: Position, e: Entry)
    requires !IsNew(p, e)
    ensures Advance(p, e) == p
  {
  }

  lemma DeliverKeeps<M>(d: Detectors<M>, w: World<M>)
    requires Inv(d, w) && Can(w, Deliver)
    ensures Inv(d, Next(d, w, Deliver))
  {
    hide Follows, Describes, Ordered, DiskGood, IsNew, Advance, Key;
    if w.conn.value < At(w.line) {
      ReplayIsRecognised(d, w);
      NotNewStays(w.pos, w.log[w.conn.value]);
    } else {
      NextIsNew(d, w);
      AdvanceDescribes(w.pos, w.line, w.log);
      var handled := w.line.handled + [w.log[At(w.line)]];
      assert handled[..|handled| - 1] == w.line.handled;
    }
  }

  /** A process that doesn't resume follows the log from its own start on. */
  lemma FreshFollows<M>(from: Time, start: M, log: seq<Entry>, last: Option<Time>)
    requires Sorted(log) && last.None?
    ensures var line := Lineage(from, FirstAt(log, from), start, []);
      Follows(line, log) && Describes(Position(from, last, {}), line, log)
  {
    FirstAtSplits(log, from);
    assert log[FirstAt(log, from)..FirstAt(log, from)] == [];
  }

  /** What restore puts together is in order: what was saved, or a fresh start. */
  lemma BootedGood<M>(d: Detectors<M>, w: World<M>)
    requires Sorted(w.log) && (w.disk.Some? ==> DiskGood(d, w.disk.value, w.log))
    ensures var w' := Booted(d, w);
      && Follows(w'.line, w.log) && Describes(w'.pos, w'.line, w.log)
      && w'.memory == Fold(d, w'.line.start, w'.line.handled)
  {
    if !Resumes(w) {
      var w' := Booted(d, w);
      FreshFollows(w'.pos.since, w'.memory, w.log, w'.pos.last);
    }
  }

  lemma BootKeeps<M>(d: Detectors<M>, w: World<M>)
    requires Inv(d, w) && Can(w, Boot)
    ensures Inv(d, Next(d, w, Boot))
  {
    BootedGood(d, w);
  }

  lemma NextKeeps<M>(d: Detectors<M>, w: World<M>, s: Step)
    requires Inv(d, w) && Can(w, s)
    ensures Inv(d, Next(d, w, s))
  {
    match s
    case Tick(_) =>
    case Append(e) => AppendKeeps(d, w, e);
    case Connect => ConnectKeeps(d, w);
    case Deliver => DeliverKeeps(d, w);
    case Drop =>
    case SaveState =>
    case Die =>
    case Boot => BootKeeps(d, w);
  }

  lemma {:induction false} RunKeeps<M>(d: Detectors<M>, steps: seq<Step>)
    requires Legal(d, steps)
    ensures Inv(d, Run(d, steps))
    decreases |steps|
  {
    if steps != [] {
      var n := |steps| - 1;
      RunKeeps(d, steps[..n]);
      NextKeeps(d, Run(d, steps[..n]), steps[n]);
    }
  }

  // ---- Where a line of processes began ----

  /** Every process that finds saved state starts soon enough to resume from it. */
  ghost predicate AlwaysResumes<M>(d: Detectors<M>, steps: seq<Step>)
    requires Legal(d, steps)
    decreases |steps|
  {
    if steps == [] then true
    else
      var n := |steps| - 1;
      var w := Run(d, steps[..n]);
      AlwaysResumes(d, steps[..n]) && (steps[n].Boot? && w.disk.Some? ==> Resumes(w))
  }

  /** When nodux came in: the last start of a process that found nothing saved. */
  ghost function CameIn<M>(d: Detectors<M>, steps: seq<Step>): Option<Time>
    requires Legal(d, steps)
    decreases |steps|
  {
    if steps == [] then None
    else
      var n := |steps| - 1;
      var w := Run(d, steps[..n]);
      if steps[n].Boot? && w.disk.None? then Some(w.now) else CameIn(d, steps[..n])
  }

  ghost predicate Began<M>(d: Detectors<M>, line: Lineage<M>, came: Option<Time>) {
    line.start == d.init && came == Some(line.from)
  }

  ghost predicate AllBegan<M>(d: Detectors<M>, w: World<M>, came: Option<Time>) {
    && (w.up ==> Began(d, w.line, came))
    && (w.disk.Some? ==> Began(d, w.disk.value.line, came))
  }

  lemma BeganStep<M>(d: Detectors<M>, w: World<M>, s: Step, came: Option<Time>)
    requires Can(w, s) && AllBegan(d, w, came) && (s.Boot? && w.disk.Some? ==> Resumes(w))
    ensures AllBegan(d, Next(d, w, s), if s.Boot? && w.disk.None? then Some(w.now) else came)
  {
    hide FirstAt, IsNew, Advance;
  }

  /** Whatever is saved and lost in between: the detectors began in their initial state, at the moment nodux came in. */
  lemma {:induction false} BeganWhenItCameIn<M>(d: Detectors<M>, steps: seq<Step>)
    requires Legal(d, steps) && AlwaysResumes(d, steps)
    ensures AllBegan(d, Run(d, steps), CameIn(d, steps))
    decreases |steps|
  {
    if steps != [] {
      hide AllBegan, Next, Resumes;
      var n := |steps| - 1;
      BeganWhenItCameIn(d, steps[..n]);
      BeganStep(d, Run(d, steps[..n]), steps[n], CameIn(d, steps[..n]));
    } else {
      assert AllBegan(d, Initial(d), None);
    }
  }

  /** The first log entry of a line of processes is the first at or after the moment it began. */
  lemma BaseIsFirst<M>(line: Lineage<M>, log: seq<Entry>)
    requires Follows(line, log)
    ensures FirstAt(log, line.from) == line.base
  {
    FirstAtLeast(log, line.from, line.base);
    if line.base < |log| {
      FirstAtMost(log, line.from, line.base);
    }
  }

  // ---- Exactly once ----

  /** A process stops right after saving, and the next one starts soon enough to resume. */
  ghost predicate CleanStep<M>(w: World<M>, s: Step) {
    && (s.Die? ==> w.disk.Some? && w.disk.value.line == w.line)
    && (s.Boot? && w.disk.Some? ==> Resumes(w))
  }

  ghost predicate Clean<M>(d: Detectors<M>, steps: seq<Step>)
    requires Legal(d, steps)
    decreases |steps|
  {
    if steps == [] then true
    else
      var n := |steps| - 1;
      Clean(d, steps[..n]) && CleanStep(Run(d, steps[..n]), steps[n])
  }

  lemma {:induction false} CleanTrace<M>(d: Detectors<M>, steps: seq<Step>)
    requires Legal(d, steps) && Clean(d, steps)
    ensures var w := Run(d, steps);
      && (w.up ==> w.trace == w.line.handled)
      && (!w.up && w.disk.Some? ==> w.trace == w.disk.value.line.handled)
      && (!w.up && w.disk.None? ==> w.trace == [])
    decreases |steps|
  {
    if steps != [] {
      var n := |steps| - 1;
      CleanTrace(d, steps[..n]);
    }
  }

  /** The first start of all. */
  ghost function FirstBoot<M>(d: Detectors<M>, steps: seq<Step>): Option<Time>
    requires Legal(d, steps)
    decreases |steps|
  {
    if steps == [] then None
    else
      var n := |steps| - 1;
      var first := FirstBoot(d, steps[..n]);
      if first.None? && steps[n].Boot? then Some(Run(d, steps[..n]).now) else first
  }

  /** With clean restarts, only the first process finds nothing saved. */
  lemma {:induction false} CleanCameInFirst<M>(d: Detectors<M>, steps: seq<Step>)
    requires Legal(d, steps) && Clean(d, steps)
    ensures AlwaysResumes(d, steps) && CameIn(d, steps) == FirstBoot(d, steps)
    ensures FirstBoot(d, steps).Some? <==> Run(d, steps).up || Run(d, steps).disk.Some?
    decreases |steps|
  {
    if steps != [] {
      hide FirstAt, IsNew, Advance, Resumes;
      CleanCameInFirst(d, steps[..|steps| - 1]);
    }
  }

  /**
   Over any number of disconnects, reconnects and clean restarts, what was handled is a stretch of the
   daemon's log from the first start on: in order, nothing missing, nothing twice.
   */
  lemma ExactlyOnce<M>(d: Detectors<M>, steps: seq<Step>)
    requires Legal(d, steps) && Clean(d, steps) && Run(d, steps).up
    ensures var w := Run(d, steps);
      && FirstBoot(d, steps).Some?
      && var first := FirstAt(w.log, FirstBoot(d, steps).value);
         first + |w.trace| <= |w.log| && w.trace == w.log[first..first + |w.trace|]
  {
    hide Run;
    RunKeeps(d, steps);
    CleanTrace(d, steps);
    CleanCameInFirst(d, steps);
    BeganWhenItCameIn(d, steps);
    BaseIsFirst(Run(d, steps).line, Run(d, steps).log);
  }

  ghost predicate AllTraced<M>(w: World<M>) {
    && (w.up ==> forall e :: e in w.line.handled ==> e in w.trace)
    && (w.disk.Some? ==> forall e :: e in w.disk.value.line.handled ==> e in w.trace)
  }

  lemma TracedStep<M>(d: Detectors<M>, w: World<M>, s: Step)
    requires Can(w, s) && AllTraced(w)
    ensures AllTraced(Next(d, w, s))
  {
    hide FirstAt, IsNew, Advance, Ordered;
  }

  lemma {:induction false} RunTraced<M>(d: Detectors<M>, steps: seq<Step>)
    requires Legal(d, steps)
    ensures AllTraced(Run(d, steps))
    decreases |steps|
  {
    if steps != [] {
      hide AllTraced, Next;
      var n := |steps| - 1;
      RunTraced(d, steps[..n]);
      TracedStep(d, Run(d, steps[..n]), steps[n]);
    } else {
      assert AllTraced(Initial(d));
    }
  }

  /** Crashes cost no event: of those since nodux came in, each up to the position was handled, by one process or another. */
  lemma NothingUnhandled<M>(d: Detectors<M>, steps: seq<Step>)
    requires Legal(d, steps) && AlwaysResumes(d, steps) && Run(d, steps).up
    ensures var w := Run(d, steps);
      && CameIn(d, steps).Some? && At(w.line) <= |w.log|
      && forall j :: FirstAt(w.log, CameIn(d, steps).value) <= j < At(w.line) ==> w.log[j] in w.trace
  {
    hide Run, FirstAt;
    var w := Run(d, steps);
    RunKeeps(d, steps);
    RunTraced(d, steps);
    BeganWhenItCameIn(d, steps);
    BaseIsFirst(w.line, w.log);
    forall j | w.line.base <= j < At(w.line) ensures w.log[j] in w.trace {
      assert w.line.handled[j - w.line.base] == w.log[j];
    }
  }

  /** Once the connection has nothing more to send, nothing is left to handle. */
  lemma CaughtUp<M>(d: Detectors<M>, steps: seq<Step>)
    requires Legal(d, steps) && Run(d, steps).up && Run(d, steps).conn == Some(|Run(d, steps).log|)
    ensures Run(d, steps).line.base <= |Run(d, steps).log|
    ensures Run(d, steps).line.handled == Run(d, steps).log[Run(d, steps).line.base..]
  {
    RunKeeps(d, steps);
  }

  // ---- Crash recovery ----

  /**
   Whatever crashed and whenever it was saved, the detectors are in the state of a process that ran
   through, over the same stretch of the log, without ever being interrupted.
   */
  lemma CrashRecovery<M>(d: Detectors<M>, steps: seq<Step>)
    requires Legal(d, steps) && Run(d, steps).up
    ensures var w := Run(d, steps);
      && At(w.line) <= |w.log|
      && w.memory == Fold(d, w.line.start, w.log[w.line.base..At(w.line)])
  {
    RunKeeps(d, steps);
  }

  /** If every restart resumes, that stretch goes from the moment nodux came in, and the detectors started afresh. */
  lemma RecoveryIsFromTheStart<M>(d: Detectors<M>, steps: seq<Step>)
    requires Legal(d, steps) && AlwaysResumes(d, steps) && Run(d, steps).up
    ensures var w := Run(d, steps);
      && CameIn(d, steps).Some?
      && FirstAt(w.log, CameIn(d, steps).value) <= At(w.line) <= |w.log|
      && w.memory == Fold(d, d.init, w.log[FirstAt(w.log, CameIn(d, steps).value)..At(w.line)])
  {
    hide Run;
    RunKeeps(d, steps);
    CrashRecovery(d, steps);
    BeganWhenItCameIn(d, steps);
    BaseIsFirst(Run(d, steps).line, Run(d, steps).log);
  }

  /** Two runs over the same log that came in at the same moment: once both have caught up, the detectors agree. */
  lemma InterruptionsDontShow<M>(d: Detectors<M>, steps: seq<Step>, others: seq<Step>)
    requires Legal(d, steps) && AlwaysResumes(d, steps) && Legal(d, others) && AlwaysResumes(d, others)
    requires Run(d, steps).log == Run(d, others).log && CameIn(d, steps) == CameIn(d, others)
    requires Run(d, steps).up && Run(d, steps).conn == Some(|Run(d, steps).log|)
    requires Run(d, others).up && Run(d, others).conn == Some(|Run(d, others).log|)
    ensures Run(d, steps).memory == Run(d, others).memory
  {
    hide Run;
    AtTheEnd(d, steps);
    AtTheEnd(d, others);
    RecoveryIsFromTheStart(d, steps);
    RecoveryIsFromTheStart(d, others);
  }

  lemma AtTheEnd<M>(d: Detectors<M>, steps: seq<Step>)
    requires Legal(d, steps) && Run(d, steps).up && Run(d, steps).conn == Some(|Run(d, steps).log|)
    ensures At(Run(d, steps).line) == |Run(d, steps).log|
  {
    hide Run;
    RunKeeps(d, steps);
  }

  // ---- Memory over restarts that don't resume ----

  /** What the state in use comes from, and what the saved state comes from: all events either was ever told about. */
  datatype Past = Past(live: seq<Entry>, saved: seq<Entry>)

  /** A boot goes on from what was saved, whether or not it resumes the stream there. */
  ghost function PastOf<M>(d: Detectors<M>, steps: seq<Step>): Past
    requires Legal(d, steps)
    decreases |steps|
  {
    if steps == [] then Past([], [])
    else
      var n := |steps| - 1;
      var p, before := PastOf(d, steps[..n]), Run(d, steps[..n]).trace;
      match steps[n]
      case Deliver => p.(live := p.live + (if |before| <= |Run(d, steps).trace| then Run(d, steps).trace[|before|..] else []))
      case SaveState => p.(saved := p.live)
      case Boot => p.(live := p.saved)
      case _ => p
  }

  ghost predicate EndsWith(all: seq<Entry>, part: seq<Entry>) {
    |part| <= |all| && all[|all| - |part|..] == part
  }

  ghost predicate Remembered<M>(d: Detectors<M>, w: World<M>, p: Past) {
    && (w.up ==> w.memory == Fold(d, d.init, p.live) && EndsWith(p.live, w.line.handled))
    && (w.disk.None? ==> p.saved == [])
    && (w.disk.Some? ==> w.disk.value.memory == Fold(d, d.init, p.saved) && EndsWith(p.saved, w.disk.value.line.handled))
  }

  lemma FoldOne<M>(d: Detectors<M>, s: M, es: seq<Entry>, e: Entry)
    ensures Fold(d, s, es + [e]) == d.step(Fold(d, s, es), e)
  {
    assert (es + [e])[..|es|] == es;
  }

  lemma EndsWithOne(all: seq<Entry>, part: seq<Entry>, e: Entry)
    requires EndsWith(all, part)
    ensures EndsWith(all + [e], part + [e])
  {
    assert (all + [e])[|all| - |part|..] == all[|all| - |part|..] + [e];
  }

  lemma DeliverRemembered<M>(d: Detectors<M>, w: World<M>, p: Past)
    requires Remembered(d, w, p) && Can(w, Deliver)
    ensures var w' := Next(d, w, Deliver);
      |w.trace| <= |w'.trace| && Remembered(d, w', p.(live := p.live + w'.trace[|w.trace|..]))
  {
    hide Fold, IsNew, Advance, EndsWith;
    var w', e := Next(d, w, Deliver), w.log[w.conn.value];
    if IsNew(w.pos, e) {
      assert w'.trace[|w.trace|..] == [e];
      FoldOne(d, d.init, p.live, e);
      EndsWithOne(p.live, w.line.handled, e);
    } else {
      assert w'.trace[|w.trace|..] == [] && p.live + [] == p.live;
    }
  }

  lemma BootRemembered<M>(d: Detectors<M>, w: World<M>, p: Past)
    requires Remembered(d, w, p)
    ensures Remembered(d, Next(d, w, Boot), p.(live := p.saved))
  {
    hide FirstAt;
  }

  /**
   Whatever crashed, however long nodux was down, and wherever the stream was taken up again: the detectors are in
   the state of one pass over all events that led to the save each process started from, and those since.
   */
  lemma {:induction false} MemoryIsItsPast<M>(d: Detectors<M>, steps: seq<Step>)
    requires Legal(d, steps)
    ensures Remembered(d, Run(d, steps), PastOf(d, steps))
    decreases |steps|
  {
    if steps != [] {
      hide Fold, EndsWith, FirstAt, IsNew, Advance, Booted;
      var n := |steps| - 1;
      MemoryIsItsPast(d, steps[..n]);
      var w, p := Run(d, steps[..n]), PastOf(d, steps[..n]);
      match steps[n]
      case Deliver => DeliverRemembered(d, w, p);
      case Boot => BootRemembered(d, w, p);
      case _ =>
    } else {
      NothingRemembered(d);
    }
  }

  lemma NothingRemembered<M>(d: Detectors<M>)
    ensures Remembered(d, Run(d, []), PastOf(d, []))
  {
  }

  lemma SavedIsLatest<M>(d: Detectors<M>, w: World<M>)
    requires Inv(d, w) && w.disk.Some?
    ensures var disk := w.disk.value;
      && At(disk.line) <= |w.log|
      && (forall j :: 0 <= j < At(disk.line) ==> w.log[j].time <= disk.saved.since)
      && (forall j :: At(disk.line) <= j < |w.log| ==> w.log[j].time >= disk.saved.since)
  {
    var line, since := w.disk.value.line, w.disk.value.saved.since;
    if line.handled != [] {
      forall j | 0 <= j < At(line) ensures w.log[j].time <= since {
        assert j == At(line) - 1 || w.log[j].time <= w.log[At(line) - 1].time;
      }
      forall j | At(line) <= j < |w.log| ensures w.log[j].time >= since {
        assert w.log[At(line) - 1].time <= w.log[j].time;
      }
    }
  }

  /** Where a process goes on that finds saved state: after what was handled, or at the first entry of a moment of its own. */
  lemma BootedAt<M>(d: Detectors<M>, w: World<M>)
    requires Inv(d, w) && w.disk.Some?
    ensures var w', since := Booted(d, w), w.disk.value.saved.since;
      && (Resumes(w) ==> w'.line == w.disk.value.line)
      && (since > w.now ==> At(w'.line) == FirstAt(w.log, w.now))
      && (since < w.now - MAX_REPLAY ==> At(w'.line) == FirstAt(w.log, w.now - MAX_REPLAY))
  {
    hide FirstAt;
  }

  /**
   What a restart skips and what it handles again: nothing if it resumes. If the saved position is older than the replay
   limit, it skips exactly the unhandled entries older than that. If the position is from the future, it skips nothing, and
   of what came before it, exactly the entries stamped now or later come again.
   */
  lemma RestartSkipsOnlyTheOld<M>(d: Detectors<M>, steps: seq<Step>)
    requires Legal(d, steps) && !Run(d, steps).up && Run(d, steps).disk.Some?
    ensures var w := Run(d, steps);
      var w' := Booted(d, w);
      var from, since := At(w.disk.value.line), w.disk.value.saved.since;
      && from <= |w.log| && At(w'.line) <= |w.log|
      && (Resumes(w) ==> w'.line == w.disk.value.line)
      && (since < w.now - MAX_REPLAY ==>
            && from <= At(w'.line)
            && (forall j :: from <= j < |w.log| ==> (j < At(w'.line) <==> w.log[j].time < w.now - MAX_REPLAY))
            && (from == At(w'.line) <==> from == |w.log| || w.log[from].time >= w.now - MAX_REPLAY))
      && (since > w.now ==>
            && At(w'.line) <= from
            && (forall j :: 0 <= j < from ==> (At(w'.line) <= j <==> w.log[j].time >= w.now)))
  {
    hide Run, FirstAt;
    RunKeeps(d, steps);
    var w := Run(d, steps);
    var from, since := At(w.disk.value.line), w.disk.value.saved.since;
    SavedIsLatest(d, w);
    BootedAt(d, w);
    FirstAtSplits(w.log, w.now - MAX_REPLAY);
    FirstAtSplits(w.log, w.now);
    if since < w.now - MAX_REPLAY {
      FirstAtLeast(w.log, w.now - MAX_REPLAY, from);
    }
    if since > w.now && from < |w.log| {
      FirstAtMost(w.log, w.now, from);
    }
  }

  // ---- An event that comes late ----

  /**
   An event stamped before the position that comes into the log while nodux isn't connected is lost: the replay starts
   after it, and it wouldn't count as new.
   */
  lemma LateEntryIsMissed<M>(d: Detectors<M>, w: World<M>, e: Entry)
    requires w.up && w.conn.None? && Sorted(w.log + [e]) && e.time < w.pos.since
    ensures Next(d, w.(log := w.log + [e]), Connect).conn == Some(|w.log| + 1)
    ensures w.pos.last == Some(w.pos.since) ==> !IsNew(w.pos, e)
  {
    var log := w.log + [e];
    forall j | 0 <= j < |log| ensures log[j].time < w.pos.since {
      assert j == |w.log| || log[j].time <= log[|w.log|].time;
    }
    FirstAtLeast(log, w.pos.since, |log|);
  }
}

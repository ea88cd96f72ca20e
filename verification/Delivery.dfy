/** The HTTP receivers: a bounded queue, one worker that drains it, and retries. */
module Deliveries {
  import opened Base

  const QUEUE_SIZE: nat := 100
  const ATTEMPTS: nat := 3

  datatype Notification = Notification(incidentID: string, text: string)

  type Body = string

  /** What one POST comes to: below 300; a network error, 429, or 500 and up; anything else. */
  datatype Answer = Accepted | Transient | Permanent

  /** The answer to each attempt, and whether shutdown interrupts the wait after it. */
  datatype Fate = Fate(answers: nat -> Answer, stopped: nat -> bool)

  datatype Delivery = Delivery(body: Body, posts: nat, ok: bool)

  /** Attempt `k` is the last one. */
  predicate Ends(f: Fate, k: nat) {
    f.answers(k) != Transient || k == ATTEMPTS || f.stopped(k)
  }

  /** Posting starts at attempt `k` and ends at the result. */
  function Tries(f: Fate, k: nat): nat
    requires k <= ATTEMPTS
    decreases ATTEMPTS - k
  {
    if Ends(f, k) then k else Tries(f, k + 1)
  }

  function Delivered(body: Body, f: Fate): Delivery {
    Delivery(body, Tries(f, 1), f.answers(Tries(f, 1)) == Accepted)
  }

  lemma {:induction false} TriesEnds(f: Fate, k: nat)
    requires k <= ATTEMPTS
    ensures k <= Tries(f, k) <= ATTEMPTS && Ends(f, Tries(f, k))
    ensures forall i :: k <= i < Tries(f, k) ==> f.answers(i) == Transient && !f.stopped(i)
    decreases ATTEMPTS - k
  {
    if !Ends(f, k) {
      TriesEnds(f, k + 1);
    }
  }

  lemma {:induction false} TriesIs(f: Fate, k: nat, posts: nat)
    requires k <= posts <= ATTEMPTS && Ends(f, posts)
    requires forall i :: k <= i < posts ==> f.answers(i) == Transient && !f.stopped(i)
    ensures Tries(f, k) == posts
    decreases posts - k
  {
    if k < posts {
      TriesIs(f, k + 1, posts);
    }
  }

  /** A body is posted one to three times: every attempt but the last failed in a way worth retrying, and wasn't interrupted. */
  lemma PostedAtMostThreeTimes(body: Body, f: Fate, posts: nat, ok: bool)
    ensures Delivered(body, f) == Delivery(body, posts, ok) <==>
      && 1 <= posts <= ATTEMPTS
      && (forall i :: 1 <= i < posts ==> f.answers(i) == Transient && !f.stopped(i))
      && (ok <==> f.answers(posts) == Accepted)
      && (f.answers(posts) == Transient ==> posts == ATTEMPTS || f.stopped(posts))
  {
    TriesEnds(f, 1);
    if && 1 <= posts <= ATTEMPTS
       && (forall i :: 1 <= i < posts ==> f.answers(i) == Transient && !f.stopped(i))
       && (f.answers(posts) == Transient ==> posts == ATTEMPTS || f.stopped(posts))
    {
      TriesIs(f, 1, posts);
    }
  }

  /** The first pause is the backoff, and each further one twice as long. */
  ghost predicate Doubling(waits: seq<Time>, backoff: Time) {
    (waits != [] ==> waits[0] == backoff) && forall i :: 0 < i < |waits| ==> waits[i] == 2 * waits[i - 1]
  }

  // ---- The receiver ----

  datatype State = State(closed: bool, queue: seq<Notification>, sent: nat, failed: nat, dropped: nat)

  datatype Verdict = Queued | Full | Refused

  /** What the worker finds: a notification, an empty queue that something may still come into, or the end. */
  datatype Taken = Got(n: Notification) | Waits | Drained

  function Push(s: State, n: Notification): (State, Verdict) {
    if |s.queue| < QUEUE_SIZE then (s.(queue := s.queue + [n]), Queued) else (s.(dropped := s.dropped + 1), Full)
  }

  /** A delivery is counted once. */
  function Noted(s: State, d: Delivery): State {
    if d.ok then s.(sent := s.sent + 1) else s.(failed := s.failed + 1)
  }

  function NotedAll(s: State, ds: seq<Delivery>): State {
    if ds == [] then s else Noted(NotedAll(s, ds[..|ds| - 1]), ds[|ds| - 1])
  }

  /** Each body with its fate. */
  function DeliveredAll(bodies: seq<Body>, fates: seq<Fate>): (ds: seq<Delivery>)
    requires |bodies| == |fates|
    ensures |ds| == |bodies| && forall i :: 0 <= i < |bodies| ==> ds[i] == Delivered(bodies[i], fates[i])
  {
    seq(|bodies|, i requires 0 <= i < |bodies| => Delivered(bodies[i], fates[i]))
  }

  class HTTPAction {
    const backoff: Time
    var closed: bool
    var queue: seq<Notification>
    var sent: nat
    var failed: nat
    var dropped: nat

    function Abs(): State
      reads this
    {
      State(closed, queue, sent, failed, dropped)
    }

    constructor (backoff: Time)
      ensures this.backoff == backoff && Abs() == State(false, [], 0, 0, 0)
    {
      this.backoff := backoff;
      closed, queue, sent, failed, dropped := false, [], 0, 0, 0;
    }

    method Send(n: Notification) returns (v: Verdict)
      modifies this`queue, this`dropped
      ensures old(closed) ==> v == Refused && Abs() == old(Abs())
      ensures !old(closed) ==> (Abs(), v) == Push(old(Abs()), n)
    {
      if closed {
        return Refused;
      }
      if |queue| < QUEUE_SIZE {
        queue := queue + [n];
        v := Queued;
      } else {
        dropped := dropped + 1;
        v := Full;
      }
    }

    method Close()
      modifies this`closed
      ensures Abs() == old(Abs()).(closed := true)
    {
      if !closed {
        closed := true;
      }
    }

    /** The worker turns to the queue. */
    method Take() returns (t: Taken)
      modifies this`queue
      ensures old(queue) != [] ==> t == Got(old(queue)[0]) && Abs() == old(Abs()).(queue := old(queue)[1..])
      ensures old(queue) == [] ==> t == (if closed then Drained else Waits) && Abs() == old(Abs())
    {
      if queue != [] {
        t := Got(queue[0]);
        queue := queue[1..];
      } else if closed {
        t := Drained;
      } else {
        t := Waits;
      }
    }

    /** One notification: `bodies` is what rendering it gave, if it could be rendered. */
    method Process(bodies: Option<seq<Body>>, fates: seq<Fate>)
      requires bodies.Some? ==> |bodies.value| == |fates|
      modifies this`sent, this`failed
      ensures bodies.None? ==> Abs() == old(Abs()).(failed := old(failed) + 1)
      ensures bodies.Some? ==> Abs() == NotedAll(old(Abs()), DeliveredAll(bodies.value, fates))
    {
      if bodies.None? {
        failed := failed + 1;
        return;
      }
      ghost var ds := DeliveredAll(bodies.value, fates);
      for i := 0 to |fates|
        invariant Abs() == NotedAll(old(Abs()), ds[..i])
      {
        var ok, _, _ := Deliver(fates[i]);
        assert ds[..i + 1][..i] == ds[..i] && ds[i].ok == ok;
        if ok {
          sent := sent + 1;
        } else {
          failed := failed + 1;
        }
      }
      assert ds[..|fates|] == ds;
    }

    /** Posts one body. `waits` are the pauses sat out between attempts. */
    method Deliver(f: Fate) returns (ok: bool, posts: nat, waits: seq<Time>)
      ensures forall body :: Delivered(body, f) == Delivery(body, posts, ok)
      ensures |waits| == posts - 1 && Doubling(waits, backoff)
    {
      var delay := backoff;
      posts, waits := 1, [];
      while true
        invariant 1 <= posts <= ATTEMPTS && delay == if waits == [] then backoff else 2 * waits[|waits| - 1]
        invariant forall i :: 1 <= i < posts ==> f.answers(i) == Transient && !f.stopped(i)
        invariant |waits| == posts - 1 && Doubling(waits, backoff)
        decreases ATTEMPTS - posts
      {
        var answer := f.answers(posts);
        if answer == Accepted {
          TriesIs(f, 1, posts);
          return true, posts, waits;
        }
        if answer == Permanent || posts == ATTEMPTS || f.stopped(posts) {
          TriesIs(f, 1, posts);
          return false, posts, waits;
        }
        waits := waits + [delay];
        delay := 2 * delay;
        posts := posts + 1;
      }
    }
  }
}

/** Senders, Close and the worker, interleaved in every way the lock allows. */
module DeliveryProtocol {
  import opened Base
  import opened Deliveries

  /** What the worker is doing. */
  datatype Work =
    | Waiting
    | Rendering(n: Notification)
    | Posting(n: Notification, left: seq<Body>, ds: seq<Delivery>)

  /** What became of a notification the worker took. */
  datatype Report = Unrendered(n: Notification) | Posted(n: Notification, ds: seq<Delivery>)

  datatype World = World(
    s: State,
    inside: seq<Notification>,  // senders that hold the read lock and found the queue open
    work: Work,
    cancelled: bool,
    done: bool,
    accepted: seq<Notification>,
    taken: seq<Notification>,
    reports: seq<Report>,
    sends: nat,                 // calls of Send that found the queue open and returned
    onClosed: nat)              // sends on a closed queue; the program would crash

  const START := World(State(false, [], 0, 0, 0), [], Waiting, false, false, [], [], [], 0, 0)

  datatype Step =
    | Enter(n: Notification)
    | Commit(i: nat)
    | CloseQueue
    | Expire                    // Close stopped waiting and cancels what is in flight
    | Take
    | Render(bodies: Option<seq<Body>>)
    | Post(f: Fate)
    | Finish

  /** The write lock keeps Close out while a sender is inside; the worker takes one thing at a time. */
  predicate Can(w: World, step: Step) {
    match step
    case Enter(_) => true
    case Commit(i) => i < |w.inside|
    case CloseQueue => w.inside == []
    case Expire => w.s.closed
    case Take => w.work == Waiting && !w.done && w.s.queue != []
    case Render(_) => w.work.Rendering?
    case Post(_) => w.work.Posting? && w.work.left != []
    case Finish => w.work == Waiting && !w.done && w.s.closed && w.s.queue == []
  }

  /** The worker goes back to waiting once the last body is posted. */
  function Posted1(w: World, n: Notification, left: seq<Body>, ds: seq<Delivery>): World {
    if left == [] then w.(work := Waiting, reports := w.reports + [Posted(n, ds)]) else w.(work := Posting(n, left, ds))
  }

  function Apply(w: World, step: Step): World
    requires Can(w, step)
  {
    match step
    case Enter(n) => if w.s.closed then w else w.(inside := w.inside + [n])
    case Commit(i) =>
      var n := w.inside[i];
      var (s, verdict) := Push(w.s, n);
      w.(s := s, inside := w.inside[..i] + w.inside[i + 1..], sends := w.sends + 1,
         accepted := if verdict == Queued then w.accepted + [n] else w.accepted,
         onClosed := if w.s.closed then w.onClosed + 1 else w.onClosed)
    case CloseQueue => w.(s := w.s.(closed := true))
    case Expire => w.(cancelled := true)
    case Take =>
      w.(s := w.s.(queue := w.s.queue[1..]), work := Rendering(w.s.queue[0]), taken := w.taken + [w.s.queue[0]])
    case Render(bodies) =>
      var n := w.work.n;
      if bodies.None? then w.(s := w.s.(failed := w.s.failed + 1), work := Waiting, reports := w.reports + [Unrendered(n)])
      else Posted1(w, n, bodies.value, [])
    case Post(f) =>
      var d := Delivered(w.work.left[0], f);
      Posted1(w.(s := Noted(w.s, d)), w.work.n, w.work.left[1..], w.work.ds + [d])
    case Finish => w.(done := true)
  }

  ghost predicate Legal(steps: seq<Step>)
    decreases |steps|, 0
  {
    steps == [] || (Legal(steps[..|steps| - 1]) && Can(Run(steps[..|steps| - 1]), steps[|steps| - 1]))
  }

  ghost function Run(steps: seq<Step>): World
    requires Legal(steps)
    decreases |steps|, 1
  {
    if steps == [] then START else Apply(Run(steps[..|steps| - 1]), steps[|steps| - 1])
  }

  // ---- What every step keeps ----

  function Notes(reports: seq<Report>): (ns: seq<Notification>)
    ensures |ns| == |reports| && forall i :: 0 <= i < |reports| ==> ns[i] == reports[i].n
  {
    seq(|reports|, i requires 0 <= i < |reports| => reports[i].n)
  }

  function InHand(work: Work): seq<Notification> {
    if work == Waiting then [] else [work.n]
  }

  function Oks(ds: seq<Delivery>): nat {
    if ds == [] then 0 else Oks(ds[..|ds| - 1]) + if ds[|ds| - 1].ok then 1 else 0
  }

  function Misses(ds: seq<Delivery>): nat {
    if ds == [] then 0 else Misses(ds[..|ds| - 1]) + if ds[|ds| - 1].ok then 0 else 1
  }

  function SentIn(reports: seq<Report>): nat {
    if reports == [] then 0
    else
      var r := reports[|reports| - 1];
      SentIn(reports[..|reports| - 1]) + if r.Posted? then Oks(r.ds) else 0
  }

  function FailedIn(reports: seq<Report>): nat {
    if reports == [] then 0
    else
      var r := reports[|reports| - 1];
      FailedIn(reports[..|reports| - 1]) + if r.Posted? then Misses(r.ds) else 1
  }

  function Current(work: Work): seq<Delivery> {
    if work.Posting? then work.ds else []
  }

  /** A sender inside means the queue is open, so no send meets a closed queue. */
  ghost predicate LockKept(w: World) {
    (w.inside != [] ==> !w.s.closed) && w.onClosed == 0 && (w.cancelled ==> w.s.closed)
  }

  ghost predicate Fifo(w: World) {
    && |w.s.queue| <= QUEUE_SIZE
    && w.accepted == w.taken + w.s.queue
    && w.taken == Notes(w.reports) + InHand(w.work)
    && w.sends == |w.accepted| + w.s.dropped
  }

  ghost predicate DoneMeansDrained(w: World) {
    w.done ==> w.s.closed && w.s.queue == [] && w.work == Waiting && w.inside == []
  }

  ghost predicate Counted(w: World) {
    && w.s.sent == SentIn(w.reports) + Oks(Current(w.work))
    && w.s.failed == FailedIn(w.reports) + Misses(Current(w.work))
    && (w.work.Posting? ==> w.work.left != [])
  }

  ghost predicate Tried(ds: seq<Delivery>) {
    forall i :: 0 <= i < |ds| ==> 1 <= ds[i].posts <= ATTEMPTS
  }

  ghost predicate AllTried(w: World) {
    && (forall i :: 0 <= i < |w.reports| && w.reports[i].Posted? ==> Tried(w.reports[i].ds))
    && Tried(Current(w.work))
  }

  lemma LockStep(w: World, step: Step)
    requires LockKept(w) && DoneMeansDrained(w) && Can(w, step)
    ensures LockKept(Apply(w, step)) && DoneMeansDrained(Apply(w, step))
  {
    hide Delivered;
    if step.Commit? {
      assert w.inside != [];
    }
  }

  lemma NotesNext(reports: seq<Report>, r: Report)
    ensures Notes(reports + [r]) == Notes(reports) + [r.n]
  {
  }

  lemma WorkStep(w: World, n: Notification, left: seq<Body>, ds: seq<Delivery>)
    ensures var w' := Posted1(w, n, left, ds);
      Notes(w'.reports) + InHand(w'.work) == Notes(w.reports) + [n]
  {
    NotesNext(w.reports, Posted(n, ds));
    assert Notes(w.reports + [Posted(n, ds)]) + [] == Notes(w.reports + [Posted(n, ds)]);
  }

  lemma FifoStep(w: World, step: Step)
    requires Fifo(w) && Can(w, step)
    ensures Fifo(Apply(w, step))
  {
    hide Delivered, Notes;
    match step
    case Enter(_) =>
    case Commit(i) =>
      assert w.taken + (w.s.queue + [w.inside[i]]) == (w.taken + w.s.queue) + [w.inside[i]];
    case CloseQueue =>
    case Expire =>
    case Take =>
      var q := w.s.queue;
      assert (w.taken + [q[0]]) + q[1..] == w.taken + q;
      assert Notes(w.reports) + [] == Notes(w.reports);
    case Render(bodies) =>
      if bodies.None? {
        NotesNext(w.reports, Unrendered(w.work.n));
        assert Notes(w.reports + [Unrendered(w.work.n)]) + [] == Notes(w.reports) + [w.work.n];
      } else {
        WorkStep(w, w.work.n, bodies.value, []);
      }
    case Post(f) =>
      var d := Delivered(w.work.left[0], f);
      WorkStep(w.(s := Noted(w.s, d)), w.work.n, w.work.left[1..], w.work.ds + [d]);
    case Finish =>
  }

  lemma OksNext(ds: seq<Delivery>, d: Delivery)
    ensures Oks(ds + [d]) == Oks(ds) + if d.ok then 1 else 0
    ensures Misses(ds + [d]) == Misses(ds) + if d.ok then 0 else 1
  {
    assert (ds + [d])[..|ds|] == ds;
  }

  lemma ReportNext(reports: seq<Report>, r: Report)
    ensures SentIn(reports + [r]) == SentIn(reports) + if r.Posted? then Oks(r.ds) else 0
    ensures FailedIn(reports + [r]) == FailedIn(reports) + if r.Posted? then Misses(r.ds) else 1
  {
    assert (reports + [r])[..|reports|] == reports;
  }

  /** The counters match once those of the deliveries at hand do. */
  lemma CountedPosted(w: World, n: Notification, left: seq<Body>, ds: seq<Delivery>)
    requires w.s.sent == SentIn(w.reports) + Oks(ds) && w.s.failed == FailedIn(w.reports) + Misses(ds)
    ensures Counted(Posted1(w, n, left, ds))
  {
    ReportNext(w.reports, Posted(n, ds));
  }

  lemma CountedStep(w: World, step: Step)
    requires Counted(w) && Can(w, step)
    ensures Counted(Apply(w, step))
  {
    hide Delivered, SentIn, FailedIn, Posted1;
    if step.Render? {
      if step.bodies.None? {
        ReportNext(w.reports, Unrendered(w.work.n));
      } else {
        CountedPosted(w, w.work.n, step.bodies.value, []);
      }
    } else if step.Post? {
      var d := Delivered(w.work.left[0], step.f);
      OksNext(w.work.ds, d);
      CountedPosted(w.(s := Noted(w.s, d)), w.work.n, w.work.left[1..], w.work.ds + [d]);
    }
  }

  lemma TriedStep(w: World, step: Step)
    requires AllTried(w) && Can(w, step)
    ensures AllTried(Apply(w, step))
  {
    if step.Post? {
      var d := Delivered(w.work.left[0], step.f);
      PostedAtMostThreeTimes(w.work.left[0], step.f, d.posts, d.ok);
      assert Tried(w.work.ds + [d]);
    }
  }

  ghost predicate Inv(w: World) {
    LockKept(w) && Fifo(w) && DoneMeansDrained(w) && Counted(w) && AllTried(w)
  }

  lemma StartKeeps()
    ensures Inv(START)
  {
  }

  lemma StepKeeps(w: World, step: Step)
    requires Inv(w) && Can(w, step)
    ensures Inv(Apply(w, step))
  {
    hide Apply, LockKept, Fifo, DoneMeansDrained, Counted, AllTried;
    LockStep(w, step);
    FifoStep(w, step);
    CountedStep(w, step);
    TriedStep(w, step);
  }

  /**
   * Over every interleaving: nothing is sent on the closed queue, which never holds more than its size; what was
   * accepted is taken in order and ends up in one report; each delivery is one to three posts, counted once.
   */
  lemma {:induction false} RunKeeps(steps: seq<Step>)
    requires Legal(steps)
    ensures Inv(Run(steps))
    decreases |steps|
  {
    hide Inv, Apply;
    if steps == [] {
      StartKeeps();
    } else {
      RunKeeps(steps[..|steps| - 1]);
      StepKeeps(Run(steps[..|steps| - 1]), steps[|steps| - 1]);
    }
  }

  /**
   * After every run, a notification is dropped exactly if 100 are waiting when its sender gets to the queue; otherwise it is
   * accepted. Nothing else is ever accepted or dropped.
   */
  lemma DroppedOnlyWhenFull(steps: seq<Step>, step: Step)
    requires Legal(steps) && Can(Run(steps), step)
    ensures var w := Run(steps);
      var w', waiting := Apply(w, step), |w.accepted| - |w.taken|;
      && waiting <= 100
      && w'.accepted == w.accepted + (if step.Commit? && waiting < 100 then [w.inside[step.i]] else [])
      && w'.s.dropped == w.s.dropped + (if step.Commit? && waiting == 100 then 1 else 0)
  {
    hide Run, Legal, Notes, SentIn, FailedIn, Delivered;
    RunKeeps(steps);
    var w := Run(steps);
    assert w.accepted + [] == w.accepted;
  }

  /** When the worker is done, every notification ever accepted has its report, in the order they were accepted. */
  lemma DoneMeansAllReported(steps: seq<Step>)
    requires Legal(steps) && Run(steps).done
    ensures var w := Run(steps);
      Notes(w.reports) == w.accepted && w.s.sent == SentIn(w.reports) && w.s.failed == FailedIn(w.reports)
  {
    hide Run;
    RunKeeps(steps);
    var w := Run(steps);
    assert w.taken + [] == w.taken && Notes(w.reports) + [] == Notes(w.reports);
  }

  /** Nothing changes after that, whoever still calls Send or Close. */
  lemma DoneIsFinal(w: World, step: Step)
    requires DoneMeansDrained(w) && Counted(w) && w.done && Can(w, step)
    ensures Apply(w, step) == w.(cancelled := Apply(w, step).cancelled)
  {
  }

  // ---- Draining ends ----

  predicate ByWorker(step: Step) {
    step.Take? || step.Render? || step.Post? || step.Finish?
  }

  /** Once closed, the worker can always go on until it is done: Close doesn't wait for nothing. */
  lemma DrainNeverStuck(w: World)
    requires w.s.closed && !w.done && Counted(w)
    ensures exists step: Step :: ByWorker(step) && Can(w, step)
  {
    match w.work
    case Waiting =>
      if w.s.queue == [] {
        assert Can(w, Finish);
      } else {
        assert Can(w, Take);
      }
    case Rendering(_) => assert Can(w, Render(None));
    case Posting(_, _, _) => assert Can(w, Post(Fate(_ => Accepted, _ => false)));
  }

  function Stage(work: Work): nat {
    match work
    case Rendering(_) => 2
    case Posting(_, _, _) => 1
    case Waiting => 0
  }

  function BodiesLeft(work: Work): nat {
    if work.Posting? then |work.left| else 0
  }

  /** Less is left to do: the worker is done, or fewer notifications wait, or the one in hand is further along. */
  ghost predicate Less(a: World, b: World) {
    || (a.done && !b.done)
    || (a.done == b.done
        && (|| |a.s.queue| < |b.s.queue|
            || (|a.s.queue| == |b.s.queue|
                && (Stage(a.work) < Stage(b.work)
                    || (Stage(a.work) == Stage(b.work) && BodiesLeft(a.work) < BodiesLeft(b.work))))))
  }

  /** Every step of the worker leaves less to do, however many bodies a notification turns out to have. */
  lemma WorkerGetsOn(w: World, step: Step)
    requires Can(w, step) && ByWorker(step)
    ensures Less(Apply(w, step), w)
  {
    hide Delivered;
  }

  /** Once closed, nobody else adds to it. */
  lemma NobodyAdds(w: World, step: Step)
    requires LockKept(w) && w.s.closed && Can(w, step)
    ensures Apply(w, step).s.closed
    ensures !ByWorker(step) ==> Apply(w, step) == w.(cancelled := Apply(w, step).cancelled)
  {
    hide Delivered;
  }

  ghost predicate Follows(run: nat -> World, steps: nat -> Step, i: nat) {
    Can(run(i), steps(i)) && run(i + 1) == Apply(run(i), steps(i))
  }

  /** The worker isn't held up forever. */
  ghost predicate GetsTurn(run: nat -> World, steps: nat -> Step, i: nat) {
    exists j: nat :: i <= j && HasTurn(run, steps, j)
  }

  ghost predicate HasTurn(run: nat -> World, steps: nat -> Step, i: nat) {
    run(i).done || ByWorker(steps(i))
  }

  ghost predicate Fair(run: nat -> World, steps: nat -> Step) {
    (forall i: nat :: Follows(run, steps, i)) && (forall i: nat :: GetsTurn(run, steps, i))
  }

  lemma {:induction false} EndsAfter(run: nat -> World, steps: nat -> Step, i: nat, j: nat)
    requires Fair(run, steps) && Inv(run(i)) && run(i).s.closed
    requires i <= j && HasTurn(run, steps, j)
    ensures exists k: nat :: i <= k && run(k).done
    decreases if run(i).done then 0 else 1, |run(i).s.queue|, Stage(run(i).work), BodiesLeft(run(i).work), j - i
  {
    hide Inv, Apply, Can, Stage, BodiesLeft;
    if !run(i).done {
      assert Follows(run, steps, i);
      StepKeeps(run(i), steps(i));
      InvLocks(run(i));
      NobodyAdds(run(i), steps(i));
      var next := j;
      if ByWorker(steps(i)) {
        WorkerGetsOn(run(i), steps(i));
        assert GetsTurn(run, steps, i + 1);
        next :| i + 1 <= next && HasTurn(run, steps, next);
      }
      EndsAfter(run, steps, i + 1, next);
    }
  }

  lemma InvLocks(w: World)
    requires Inv(w)
    ensures LockKept(w)
  {
  }

  /**
   * Closing comes to an end: from any reachable world with a closed queue, whatever bodies are rendered, whatever is
   * answered and whoever still calls, the worker is done at some point unless it is held up forever.
   */
  lemma DrainEnds(before: seq<Step>, run: nat -> World, steps: nat -> Step)
    requires Legal(before) && Run(before).s.closed && run(0) == Run(before) && Fair(run, steps)
    ensures exists k: nat :: run(k).done
  {
    hide Inv, Run;
    RunKeeps(before);
    assert GetsTurn(run, steps, 0);
    var j: nat :| HasTurn(run, steps, j);
    EndsAfter(run, steps, 0, j);
  }

  // ---- The receiver's methods are these steps ----

  /** Send on an open queue goes in and out again; on a closed one it changes nothing. */
  lemma SendIsSteps(w: World, n: Notification)
    ensures w.s.closed ==> Can(w, Enter(n)) && Apply(w, Enter(n)) == w
    ensures !w.s.closed ==>
      && Can(w, Enter(n)) && Can(Apply(w, Enter(n)), Commit(|w.inside|))
      && var w' := Apply(Apply(w, Enter(n)), Commit(|w.inside|));
         && w'.s == Push(w.s, n).0 && w'.inside == w.inside && w'.sends == w.sends + 1 && w'.work == w.work
         && w'.accepted == w.accepted + (if Push(w.s, n).1 == Queued then [n] else [])
  {
    hide Push;
    assert (w.inside + [n])[..|w.inside|] + (w.inside + [n])[|w.inside| + 1..] == w.inside;
    assert w.accepted + [] == w.accepted;
  }

  /** A sender that is done leaves the others inside. */
  lemma OthersStayInside(w: World, i: nat)
    requires i < |w.inside|
    ensures multiset(Apply(w, Commit(i)).inside) == multiset(w.inside) - multiset{w.inside[i]}
  {
    hide Push;
    assert w.inside == w.inside[..i] + [w.inside[i]] + w.inside[i + 1..];
  }

  /** Close gets the write lock once no sender is inside; what it does to the worker comes when it gives up. */
  lemma CloseIsStep(w: World)
    ensures Can(w, CloseQueue) <==> w.inside == []
    ensures Can(w, CloseQueue) ==> Apply(w, CloseQueue) == w.(s := w.s.(closed := true))
    ensures Can(w, Expire) ==> w.s.closed && Apply(w, Expire) == w.(cancelled := true)
  {
  }

  /** An idle worker takes the oldest notification, waits for one, or is done. */
  lemma TakeIsStep(w: World)
    requires w.work == Waiting && !w.done
    ensures Can(w, Take) <==> w.s.queue != []
    ensures Can(w, Take) ==>
      var w' := Apply(w, Take);
      && w'.s == w.s.(queue := w.s.queue[1..]) && w'.work == Rendering(w.s.queue[0]) && !w'.done
      && w'.taken == w.taken + [w.s.queue[0]] && w'.accepted == w.accepted && w'.reports == w.reports
    ensures Can(w, Finish) <==> w.s.queue == [] && w.s.closed
    ensures Can(w, Finish) ==> Apply(w, Finish) == w.(done := true)
  {
  }

  // ---- The worker's loop is these steps ----

  function PostsAll(w: World, fates: seq<Fate>): World
    requires w.work.Posting? && |fates| == |w.work.left| > 0
    decreases |fates|
  {
    var w' := Apply(w, Post(fates[0]));
    if |fates| == 1 then w' else PostsAll(w', fates[1..])
  }

  lemma {:induction false} NotedFirst(s: State, d: Delivery, ds: seq<Delivery>)
    ensures NotedAll(Noted(s, d), ds) == NotedAll(s, [d] + ds)
  {
    if ds == [] {
      assert [d] + ds == [d] && [d][..0] == [];
    } else {
      NotedFirst(s, d, ds[..|ds| - 1]);
      assert ([d] + ds)[..|ds|] == [d] + ds[..|ds| - 1];
    }
  }

  lemma PostFirst(w: World, f: Fate)
    requires w.work.Posting? && w.work.left != []
    ensures var d := Delivered(w.work.left[0], f);
      Apply(w, Post(f)) ==
        if |w.work.left| == 1 then w.(s := Noted(w.s, d), work := Waiting, reports := w.reports + [Posted(w.work.n, w.work.ds + [d])])
        else w.(s := Noted(w.s, d), work := Posting(w.work.n, w.work.left[1..], w.work.ds + [d]))
  {
    hide Delivered, Noted;
  }

  function Reported(w: World, ds: seq<Delivery>): World
    requires w.work.Posting?
  {
    w.(s := NotedAll(w.s, ds), work := Waiting, reports := w.reports + [Posted(w.work.n, w.work.ds + ds)])
  }

  lemma LastPost(w: World, f: Fate)
    requires w.work.Posting? && |w.work.left| == 1
    ensures Apply(w, Post(f)) == Reported(w, [Delivered(w.work.left[0], f)])
  {
    hide Delivered, Noted;
    PostFirst(w, f);
    var ds := [Delivered(w.work.left[0], f)];
    assert ds[..|ds| - 1] == [];
    assert NotedAll(w.s, ds) == Noted(NotedAll(w.s, []), ds[0]);
  }

  lemma EarlierPost(w: World, f: Fate, rest: seq<Delivery>)
    requires w.work.Posting? && |w.work.left| > 1
    ensures Apply(w, Post(f)).work.Posting? && Apply(w, Post(f)).work.left == w.work.left[1..]
    ensures Reported(Apply(w, Post(f)), rest) == Reported(w, [Delivered(w.work.left[0], f)] + rest)
  {
    hide Delivered, Noted, NotedAll;
    var d := Delivered(w.work.left[0], f);
    PostFirst(w, f);
    NotedFirst(w.s, d, rest);
    assert w.work.ds + [d] + rest == w.work.ds + ([d] + rest);
  }

  /** Posting the bodies one by one comes to what the worker's loop over them does. */
  lemma {:induction false} LoopIsSteps(w: World, fates: seq<Fate>)
    requires w.work.Posting? && |fates| == |w.work.left| > 0
    ensures PostsAll(w, fates) == Reported(w, DeliveredAll(w.work.left, fates))
    decreases |fates|
  {
    hide Apply, Delivered, Reported;
    var left := w.work.left;
    if |fates| == 1 {
      LastPost(w, fates[0]);
      assert DeliveredAll(left, fates) == [Delivered(left[0], fates[0])];
    } else {
      var rest := DeliveredAll(left[1..], fates[1..]);
      EarlierPost(w, fates[0], rest);
      LoopIsSteps(Apply(w, Post(fates[0])), fates[1..]);
      assert DeliveredAll(left, fates) == [Delivered(left[0], fates[0])] + rest;
    }
  }
}

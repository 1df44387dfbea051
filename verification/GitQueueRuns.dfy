/** What the build queue of src/server.ts guarantees over every order of arrivals, builds and ends. */
module GitQueueRuns {

  import opened GitQueue

  datatype Event =
    | Arrive(job: Job, view: View)
    | BuildEnd(r: int, ok: bool)
    | DeployEnd(r: int, ok: bool, bound: bool)
    | Take(r: int, view: View)
    | Close

  predicate CanHappen(q: Queue, e: Event) {
    && Sound(q)
    && match e
       case Arrive(_, _) => true
       case BuildEnd(r, _) => 0 <= r < |q.runners| && q.runners[r].phase.Building?
       case DeployEnd(r, _, _) => 0 <= r < |q.runners| && q.runners[r].phase.Deploying?
       case Take(r, _) => 0 <= r < |q.runners| && q.runners[r].phase.Done?
       case Close => true
  }

  function Stepped(q: Queue, e: Event): Queue
    requires CanHappen(q, e)
  {
    match e
    case Arrive(job, view) => Dispatched(q, job, view)
    case BuildEnd(r, ok) => Built(q, r, ok)
    case DeployEnd(r, ok, bound) => DeployEnded(q, r, ok, bound)
    case Take(r, view) => Took(q, r, view)
    case Close => Closed(q)
  }

  /** `at[i]` is the queue before event `i`; a daemon that starts finds whatever was recorded before. */
  ghost predicate IsRun(run: seq<Event>, at: seq<Queue>) {
    && |at| == |run| + 1 && at[0] == Queue([], None, [], at[0].last, false)
    && forall i :: 0 <= i < |run| ==> CanHappen(at[i], run[i]) && at[i + 1] == Stepped(at[i], run[i])
  }

  // ---- one runner ------------------------------------------------------------------------------

  /** No runner and no entry in the map, or one runner, which has the entry the map holds. */
  predicate OneRunner(q: Queue) {
    if q.current.None? then q.runners == []
    else
      && 0 <= q.current.value < |q.entries| && q.entries[q.current.value].running
      && |q.runners| == 1 && q.runners[0].entry == q.current.value
  }

  lemma StepKeepsOneRunner(q: Queue, e: Event)
    requires OneRunner(q) && CanHappen(q, e)
    ensures OneRunner(Stepped(q, e))
  {
  }

  /** In every state of every run at most one runner works on the binding, and while it does it is its
      entry that new pushes find in the map. */
  lemma {:induction false} AlwaysOneRunner(run: seq<Event>, at: seq<Queue>, n: nat)
    requires IsRun(run, at) && n <= |run|
    ensures OneRunner(at[n])
  {
    if n > 0 {
      AlwaysOneRunner(run, at, n - 1);
      StepKeepsOneRunner(at[n - 1], run[n - 1]);
    }
  }

  // ---- recorded deployments only get newer -----------------------------------------------------

  predicate NewerThan(j: Job, last: Last) {
    j.Push? ==> last.at.None? || j.ts > last.at.value
  }

  /** What is being built or deployed is newer than what is recorded. */
  predicate WorksOnNewer(q: Queue) {
    forall r :: r in q.runners && !r.phase.Done? ==> NewerThan(r.phase.job, q.last)
  }

  /** Recorded anew only for something strictly later. */
  predicate MovesForward(last: Last, next: Last) {
    next != last ==> next.at.Some? && (last.at.Some? ==> next.at.value > last.at.value)
  }

  lemma StepWorksOnNewer(q: Queue, e: Event)
    requires OneRunner(q) && WorksOnNewer(q) && CanHappen(q, e)
    ensures WorksOnNewer(Stepped(q, e))
    ensures MovesForward(q.last, Stepped(q, e).last)
  {
    match e
    case Arrive(_, _) =>
    case BuildEnd(r, _) => assert q.runners[r] in q.runners;
    case DeployEnd(r, _, _) => assert q.runners[r] in q.runners;
    case Take(r, _) =>
    case Close =>
  }

  lemma {:induction false} AlwaysWorksOnNewer(run: seq<Event>, at: seq<Queue>, n: nat)
    requires IsRun(run, at) && n <= |run|
    ensures WorksOnNewer(at[n])
  {
    if n > 0 {
      AlwaysWorksOnNewer(run, at, n - 1);
      AlwaysOneRunner(run, at, n - 1);
      StepWorksOnNewer(at[n - 1], run[n - 1]);
    }
  }

  /** Over any run the recorded deployment never goes back in time: between any two states it is the
      same, or strictly later. */
  lemma {:induction false} LastDeployedAtIncreases(run: seq<Event>, at: seq<Queue>, i: nat, j: nat)
    requires IsRun(run, at) && i <= j <= |run|
    ensures MovesForward(at[i].last, at[j].last)
  {
    if i < j {
      LastDeployedAtIncreases(run, at, i, j - 1);
      AlwaysOneRunner(run, at, j - 1);
      AlwaysWorksOnNewer(run, at, j - 1);
      StepWorksOnNewer(at[j - 1], run[j - 1]);
    }
  }

  // ---- the pending job is the newest since the last take ---------------------------------------

  /** How one event changes what arrived for the runner since it last took a job. */
  function SinceAfter(q: Queue, e: Event, before: seq<Job>): seq<Job> {
    match e
    case Arrive(job, _) => if q.shuttingDown then before else if q.current.None? then [] else before + [job]
    case Take(_, _) => []
    case Close => []
    case BuildEnd(_, _) => before
    case DeployEnd(_, _, _) => before
  }

  /** What arrived for the current runner since it last took a job, in order. */
  function Since(run: seq<Event>, at: seq<Queue>, n: nat): seq<Job>
    requires n <= |run| && |at| == |run| + 1
  {
    if n == 0 then [] else SinceAfter(at[n - 1], run[n - 1], Since(run, at, n - 1))
  }

  function Newest(js: seq<Job>): Option<Job> {
    if js == [] then None else Coalesced(Newest(js[..|js| - 1]), js[|js| - 1])
  }

  /** None is newer than number `k`, and of those as new it is the last to arrive. */
  predicate IsNewest(js: seq<Job>, k: int) {
    && 0 <= k < |js|
    && (forall i :: 0 <= i < k ==> Order(js[i]) <= Order(js[k]))
    && (forall i :: k < i < |js| ==> Order(js[i]) < Order(js[k]))
  }

  lemma {:induction false} NewestIs(js: seq<Job>)
    requires js != []
    ensures exists k :: IsNewest(js, k) && Newest(js) == Some(js[k])
  {
    var init, n := js[..|js| - 1], |js| - 1;
    if init == [] {
      assert Newest(init) == None && IsNewest(js, 0);
    } else {
      NewestIs(init);
      var k :| IsNewest(init, k) && Newest(init) == Some(init[k]);
      assert forall i :: 0 <= i < n ==> js[i] == init[i];
      if Order(js[n]) >= Order(js[k]) {
        assert IsNewest(js, n);
      } else {
        assert IsNewest(js, k);
      }
    }
  }

  predicate PendingIs(q: Queue, pending: Option<Job>) {
    q.current.Some? ==> 0 <= q.current.value < |q.entries| && q.entries[q.current.value].next == pending
  }

  /** In every state of every run the pending job is the newest of those that arrived since the runner
      last took one, and there is one only if any did. */
  lemma {:induction false} PendingIsNewest(run: seq<Event>, at: seq<Queue>, n: nat)
    requires IsRun(run, at) && n <= |run|
    ensures PendingIs(at[n], Newest(Since(run, at, n)))
  {
    if n > 0 {
      PendingIsNewest(run, at, n - 1);
      AlwaysOneRunner(run, at, n - 1);
      PendingStep(at[n - 1], run[n - 1], Since(run, at, n - 1));
    }
  }

  lemma PendingStep(q: Queue, e: Event, before: seq<Job>)
    requires OneRunner(q) && CanHappen(q, e) && PendingIs(q, Newest(before))
    ensures PendingIs(Stepped(q, e), Newest(SinceAfter(q, e, before)))
  {
    if e.Arrive? && !q.shuttingDown && q.current.Some? {
      assert (before + [e.job])[..|before|] == before;
    }
  }

  // ---- a drained queue has deployed the newest push --------------------------------------------

  /** Nothing goes wrong: the binding stands, the policy is `allow`, nothing throws or fails, the daemon
      keeps running, and a push carries the one (positive) time of its commit. */
  predicate Smooth(e: Event, when: string -> int) {
    match e
    case Arrive(job, view) => view == View(true, true, false) && (job.Push? ==> job.ts == when(job.sha) && job.ts > 0)
    case BuildEnd(_, ok) => ok
    case DeployEnd(_, ok, bound) => ok && bound
    case Take(_, view) => view == View(true, true, false)
    case Close => false
  }

  /** The job being built or deployed. */
  function AtWork(q: Queue): Option<Job> {
    if q.runners != [] && !q.runners[0].phase.Done? then Some(q.runners[0].phase.job) else None
  }

  function Pending(q: Queue): Option<Job> {
    if q.current.Some? && 0 <= q.current.value < |q.entries| then q.entries[q.current.value].next else None
  }

  function Recorded(q: Queue): Option<Job> {
    if q.last.sha.Some? && q.last.at.Some? then Some(Push(q.last.sha.value, q.last.at.value)) else None
  }

  /** A push that was sent, with its commit's time. */
  predicate Timely(job: Option<Job>, when: string -> int, seen: set<Job>) {
    job.Some? && job.value.Push? ==> job.value in seen && job.value.ts == when(job.value.sha) && job.value.ts > 0
  }

  predicate Honest(q: Queue, when: string -> int, seen: set<Job>) {
    && !q.shuttingDown && (q.last.sha.Some? <==> q.last.at.Some?)
    && Timely(AtWork(q), when, seen) && Timely(Pending(q), when, seen) && Timely(Recorded(q), when, seen)
  }

  predicate AsNew(job: Option<Job>, ts: int) {
    job.Some? && job.value.Push? && job.value.ts >= ts
  }

  /** A push as new as `ts` is recorded, at work or pending. */
  predicate Covered(q: Queue, ts: int) {
    AsNew(Recorded(q), ts) || AsNew(AtWork(q), ts) || AsNew(Pending(q), ts)
  }

  function Seen(run: seq<Event>, n: nat): (jobs: set<Job>)
    requires n <= |run|
    ensures forall j :: j in jobs ==> exists i :: 0 <= i < n && run[i].Arrive? && run[i].job == j
    ensures forall i :: 0 <= i < n && run[i].Arrive? ==> run[i].job in jobs
  {
    if n == 0 then {}
    else if run[n - 1].Arrive? then Seen(run, n - 1) + {run[n - 1].job}
    else Seen(run, n - 1)
  }

  lemma BeginStep(q: Queue, e: int, job: Job, when: string -> int, seen: set<Job>)
    requires 0 <= e < |q.entries| && !q.shuttingDown && q.runners == []
    requires (q.last.sha.Some? <==> q.last.at.Some?) && Timely(Recorded(q), when, seen) && Timely(Some(job), when, seen)
    ensures var q' := Begun(q, e, job, View(true, true, false));
            && Timely(AtWork(q'), when, seen)
            && (job.Push? ==> AsNew(Recorded(q'), job.ts) || AsNew(AtWork(q'), job.ts))
  {
  }

  lemma ArriveStep(q: Queue, job: Job, when: string -> int, seen: set<Job>, ts: int)
    requires OneRunner(q) && Sound(q) && Honest(q, when, seen) && Timely(Some(job), when, seen) && ts > 0
    ensures var q' := Dispatched(q, job, View(true, true, false));
            Honest(q', when, seen) && (Covered(q, ts) ==> Covered(q', ts)) && (job.Push? ==> Covered(q', job.ts))
  {
    if q.current.None? {
      var e := |q.entries|;
      var begun := q.(entries := q.entries + [Entry(true, None)], current := Some(e));
      assert (q.entries + [Entry(false, None)])[e := Entry(true, None)] == begun.entries;
      BeginStep(begun, e, job, when, seen);
    }
  }

  lemma TakeStep(q: Queue, r: int, when: string -> int, seen: set<Job>, ts: int)
    requires OneRunner(q) && Sound(q) && Honest(q, when, seen) && 0 <= r < |q.runners| && q.runners[r].phase.Done?
    ensures var q' := Took(q, r, View(true, true, false));
            Honest(q', when, seen) && (Covered(q, ts) ==> Covered(q', ts))
  {
    var e := q.runners[r].entry;
    var next := q.entries[e].next;
    assert Without(q.runners, r) == [];
    if next.Some? {
      var q0 := q.(entries := q.entries[e := q.entries[e].(next := None)], runners := []);
      BeginStep(q0, e, next.value, when, seen);
    }
  }

  lemma SmoothStep(q: Queue, e: Event, when: string -> int, seen: set<Job>, ts: int)
    requires OneRunner(q) && WorksOnNewer(q) && CanHappen(q, e) && Smooth(e, when) && Honest(q, when, seen) && ts > 0
    requires e.Arrive? ==> e.job in seen
    ensures Honest(Stepped(q, e), when, seen)
    ensures Covered(q, ts) ==> Covered(Stepped(q, e), ts)
    ensures e.Arrive? && e.job.Push? ==> Covered(Stepped(q, e), e.job.ts)
  {
    match e
    case Arrive(job, view) => ArriveStep(q, job, when, seen, ts);
    case Take(r, view) => TakeStep(q, r, when, seen, ts);
    case BuildEnd(r, ok) =>
    case DeployEnd(r, ok, bound) => assert q.runners[r] in q.runners;
  }

  lemma MoreSeen(q: Queue, when: string -> int, seen: set<Job>, more: set<Job>)
    requires Honest(q, when, seen) && seen <= more
    ensures Honest(q, when, more)
  {
  }

  /** What was recorded before the daemon started, with its commit's time. */
  predicate StartsHonest(q: Queue, when: string -> int) {
    && (q.last.sha.Some? <==> q.last.at.Some?)
    && (Recorded(q).Some? ==> q.last.at.value == when(q.last.sha.value) && q.last.at.value > 0)
  }

  /** That, and what has been sent since. */
  function Sent(run: seq<Event>, at: seq<Queue>, n: nat): set<Job>
    requires n <= |run| && |at| > 0
  {
    Seen(run, n) + if Recorded(at[0]).Some? then {Recorded(at[0]).value} else {}
  }

  lemma {:induction false} PushesAreCovered(run: seq<Event>, at: seq<Queue>, n: nat, when: string -> int)
    requires IsRun(run, at) && StartsHonest(at[0], when) && n <= |run| && forall i :: 0 <= i < n ==> Smooth(run[i], when)
    ensures Honest(at[n], when, Sent(run, at, n))
    ensures forall i :: 0 <= i < n && run[i].Arrive? && run[i].job.Push? ==> Covered(at[n], run[i].job.ts)
  {
    if n > 0 {
      PushesAreCovered(run, at, n - 1, when);
      AlwaysOneRunner(run, at, n - 1);
      AlwaysWorksOnNewer(run, at, n - 1);
      MoreSeen(at[n - 1], when, Sent(run, at, n - 1), Sent(run, at, n));
      assert Smooth(run[n - 1], when);
      SmoothStep(at[n - 1], run[n - 1], when, Sent(run, at, n), 1);
      forall i | 0 <= i < n && run[i].Arrive? && run[i].job.Push?
        ensures Covered(at[n], run[i].job.ts)
      {
        assert Smooth(run[i], when);
        SmoothStep(at[n - 1], run[n - 1], when, Sent(run, at, n), run[i].job.ts);
      }
    }
  }

  lemma DrainedIsRecorded(q: Queue, ts: int)
    requires OneRunner(q) && q.runners == [] && Covered(q, ts)
    ensures AsNew(Recorded(q), ts)
  {
  }

  /** With the policy `allow`, one time per commit and builds that succeed: once the queue has drained,
      whatever order the pushes came in, what is recorded as deployed is as new as each of them; it is one of
      them, or what was recorded before. */
  lemma DrainedQueueDeployedNewest(run: seq<Event>, at: seq<Queue>, when: string -> int, i: nat)
    requires IsRun(run, at) && StartsHonest(at[0], when) && forall i :: 0 <= i < |run| ==> Smooth(run[i], when)
    requires at[|run|].runners == [] && i < |run| && run[i].Arrive? && run[i].job.Push?
    ensures var deployed := Recorded(at[|run|]);
            && deployed.Some? && run[i].job.ts <= deployed.value.ts
            && (deployed == Recorded(at[0]) || exists k :: 0 <= k < |run| && run[k].Arrive? && run[k].job == deployed.value)
  {
    PushesAreCovered(run, at, |run|, when);
    AlwaysOneRunner(run, at, |run|);
    DrainedIsRecorded(at[|run|], run[i].job.ts);
    assert Recorded(at[|run|]).value in Sent(run, at, |run|);
  }
}

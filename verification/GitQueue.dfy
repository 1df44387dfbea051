/** The per-binding build queue of src/server.ts: one runner at a time, one pending job, and the newest
    commit wins whatever order pushes arrive in.

    A map entry is an object the runner keeps hold of, so entries have an identity here: `current` is the
    one the map holds for this binding. A step is what runs between two awaits. */
module GitQueue {

  datatype Option<T> = None | Some(value: T)

  /** The build a connect starts carries no commit; a push carries its commit and clamped time. */
  datatype Job = Connect | Push(sha: string, ts: int)

  function Order(j: Job): int {
    if j.Push? then j.ts else 0
  }

  datatype Entry = Entry(running: bool, next: Option<Job>)

  /** Where the runner awaits: the build, the deploy, or the end of a job that needs nothing more. */
  datatype Phase = Building(job: Job) | Deploying(job: Job) | Done

  datatype Runner = Runner(entry: int, phase: Phase)

  datatype Last = Last(sha: Option<string>, at: Option<int>)

  datatype Queue = Queue(entries: seq<Entry>, current: Option<int>, runners: seq<Runner>, last: Last, shuttingDown: bool)

  /** What a job finds when it begins: whether the binding and its service exist, whether the deploy
      policy is `allow`, and whether a state read or an event throws. */
  datatype View = View(bound: bool, allowed: bool, throws: bool)

  // ---- what the steps do -----------------------------------------------------------------------

  /** Already deployed, or not newer than what is. */
  predicate Stale(last: Last, j: Job) {
    j.Push? && (last.sha == Some(j.sha) || (last.at.Some? && j.ts <= last.at.value))
  }

  function FirstPhase(q: Queue, j: Job, v: View): Phase {
    if !v.bound then Done
    else if j.Push? && (!v.allowed || Stale(q.last, j)) then Done
    else if q.shuttingDown then Done
    else Building(j)
  }

  /** The runner's end: the entry is idle, and dropped from the map. */
  function Ended(q: Queue, e: int): Queue
    requires 0 <= e < |q.entries|
  {
    q.(entries := q.entries[e := Entry(false, None)],
       current := if q.current == Some(e) then None else q.current)
  }

  /** The runner of entry `e` begins a job, up to its first await. */
  function Begun(q: Queue, e: int, j: Job, v: View): Queue
    requires 0 <= e < |q.entries|
  {
    if v.throws then Ended(q, e)
    else q.(runners := q.runners + [Runner(e, FirstPhase(q, j, v))])
  }

  function Coalesced(next: Option<Job>, j: Job): Option<Job> {
    if next.None? || Order(j) >= Order(next.value) then Some(j) else next
  }

  predicate Sound(q: Queue) {
    && (q.current.Some? ==> 0 <= q.current.value < |q.entries|)
    && forall r :: r in q.runners ==> 0 <= r.entry < |q.entries|
  }

  function Dispatched(q: Queue, j: Job, v: View): Queue
    requires Sound(q)
  {
    if q.shuttingDown then q
    else
      var e := if q.current.Some? then q.current.value else |q.entries|;
      var entries := if q.current.Some? then q.entries else q.entries + [Entry(false, None)];
      if entries[e].running then
        q.(entries := entries[e := entries[e].(next := Coalesced(entries[e].next, j))])
      else
        Begun(q.(entries := entries[e := entries[e].(running := true)], current := Some(e)), e, j, v)
  }

  function Without(rs: seq<Runner>, r: int): seq<Runner>
    requires 0 <= r < |rs|
  {
    rs[..r] + rs[r + 1..]
  }

  function Built(q: Queue, r: int, ok: bool): Queue
    requires 0 <= r < |q.runners| && q.runners[r].phase.Building?
  {
    q.(runners := q.runners[r := q.runners[r].(phase := if ok then Deploying(q.runners[r].phase.job) else Done)])
  }

  function DeployEnded(q: Queue, r: int, ok: bool, bound: bool): Queue
    requires 0 <= r < |q.runners| && q.runners[r].phase.Deploying?
  {
    var j := q.runners[r].phase.job;
    q.(runners := q.runners[r := q.runners[r].(phase := Done)],
       last := if ok && bound && j.Push? then Last(Some(j.sha), Some(j.ts)) else q.last)
  }

  function Took(q: Queue, r: int, v: View): Queue
    requires Sound(q) && 0 <= r < |q.runners| && q.runners[r].phase.Done?
  {
    var e := q.runners[r].entry;
    var next := q.entries[e].next;
    var q' := q.(entries := q.entries[e := q.entries[e].(next := None)], runners := Without(q.runners, r));
    if q.shuttingDown || next.None? then Ended(q', e) else Begun(q', e, next.value, v)
  }

  function Closed(q: Queue): Queue
    requires Sound(q)
  {
    q.(shuttingDown := true,
       entries := if q.current.Some? then q.entries[q.current.value := q.entries[q.current.value].(next := None)] else q.entries)
  }

  // ---- the program -----------------------------------------------------------------------------

  class GitBuilds {
    var entries: seq<Entry>
    var current: Option<int>
    var runners: seq<Runner>
    var last: Last
    var shuttingDown: bool

    ghost function State(): Queue
      reads this
    {
      Queue(entries, current, runners, last, shuttingDown)
    }

    constructor (last: Last)
      ensures State() == Queue([], None, [], last, false)
    {
      entries, current, runners, shuttingDown := [], None, [], false;
      this.last := last;
    }

    /** `runGitDeploy`. */
    method RunGitDeploy(job: Job, v: View)
      requires Sound(State())
      modifies this
      ensures State() == Dispatched(old(State()), job, v)
    {
      if shuttingDown {
        return;
      }
      var e;
      if current.Some? {
        e := current.value;
      } else {
        e := |entries|;
        entries := entries + [Entry(false, None)];
        current := Some(e);
      }
      if entries[e].running {
        var next := entries[e].next;
        if next.None? || Order(job) >= Order(next.value) {
          entries := entries[e := entries[e].(next := Some(job))];
        }
        return;
      }
      entries := entries[e := entries[e].(running := true)];
      Begin(e, job, v);
    }

    /** `doGitDeploy` up to its build, with the runner's handling of a throw. */
    method Begin(e: int, job: Job, v: View)
      requires 0 <= e < |entries|
      modifies this
      ensures State() == Begun(old(State()), e, job, v)
    {
      if v.throws {
        entries := entries[e := entries[e].(next := None)];
        End(e);
        return;
      }
      var phase := Done;
      if v.bound && (job.Connect? || (v.allowed && !Stale(last, job))) && !shuttingDown {
        phase := Building(job);
      }
      runners := runners + [Runner(e, phase)];
    }

    /** The runner's `finally`. */
    method End(e: int)
      requires 0 <= e < |entries| && entries[e].next.None?
      modifies this
      ensures State() == Ended(old(State()), e)
    {
      entries := entries[e := entries[e].(running := false)];
      if current == Some(e) && entries[e].next.None? {
        current := None;
      }
    }

    method BuildEnds(r: int, ok: bool)
      requires 0 <= r < |runners| && runners[r].phase.Building?
      modifies this
      ensures State() == Built(old(State()), r, ok)
    {
      var phase := if ok then Deploying(runners[r].phase.job) else Done;
      runners := runners[r := runners[r].(phase := phase)];
    }

    method DeployEnds(r: int, ok: bool, bound: bool)
      requires 0 <= r < |runners| && runners[r].phase.Deploying?
      modifies this
      ensures State() == DeployEnded(old(State()), r, ok, bound)
    {
      var job := runners[r].phase.job;
      if ok && bound && job.Push? {
        last := Last(Some(job.sha), Some(job.ts));
      }
      runners := runners[r := runners[r].(phase := Done)];
    }

    /** The end of one turn of the runner's loop. */
    method TakeNext(r: int, v: View)
      requires Sound(State()) && 0 <= r < |runners| && runners[r].phase.Done?
      modifies this
      ensures State() == Took(old(State()), r, v)
    {
      var e := runners[r].entry;
      var cur := if shuttingDown then None else entries[e].next;
      entries := entries[e := entries[e].(next := None)];
      runners := runners[..r] + runners[r + 1..];
      if cur.Some? {
        Begin(e, cur.value, v);
      } else {
        End(e);
      }
    }

    method Close()
      requires Sound(State())
      modifies this
      ensures State() == Closed(old(State()))
    {
      shuttingDown := true;
      if current.Some? {
        entries := entries[current.value := entries[current.value].(next := None)];
      }
    }
  }
}

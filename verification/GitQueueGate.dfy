/** What gets a job of the build queue to work, over every run and from its events alone: the policy and the
    recorded deployment let it through when it begins, its build ends well before it is deployed, and only
    then is it recorded. */
module GitQueueGate {
  import opened GitQueue
  import opened GitQueueRuns

  /** The job that event `e` begins: the one that arrives while nothing runs, or the one that was pending. */
  function Offered(q: Queue, e: Event): Option<Job>
    requires CanHappen(q, e)
  {
    if q.shuttingDown then None
    else match e
      case Arrive(job, _) => if q.current.None? then Some(job) else None
      case Take(r, _) => q.entries[q.runners[r].entry].next
      case _ => None
  }

  function ViewOf(e: Event): View
    requires e.Arrive? || e.Take?
  {
    e.view
  }

  /** What a job needs to begin its build: its binding stands and nothing throws; a push also needs the policy
      to be `allow`, and to be neither the commit that is deployed nor as old as it. A connect needs no more. */
  predicate Clears(last: Last, j: Job, v: View) {
    && v.bound && !v.throws
    && (j.Push? ==> v.allowed && last.sha != Some(j.sha) && (last.at == None || last.at.value < j.ts))
  }

  /** The runner builds or deploys `j`. */
  predicate WorksOn(q: Queue, j: Job) {
    |q.runners| == 1 && (q.runners[0].phase == Building(j) || q.runners[0].phase == Deploying(j))
  }

  predicate Idle(q: Queue) {
    forall r :: r in q.runners ==> r.phase == Done
  }

  /** A job that may begin does, when it is offered, and no other job gets to work by that. */
  lemma WhatMayBeginDoes(q: Queue, e: Event)
    requires OneRunner(q) && CanHappen(q, e) && Offered(q, e).Some?
    ensures var j, t := Offered(q, e).value, Stepped(q, e);
            if Clears(q.last, j, ViewOf(e)) then |t.runners| == 1 && t.runners[0].phase == Building(j)
            else Idle(t)
    ensures Stepped(q, e).last == q.last
  {
  }

  /** A build that ends well is deployed and any other end of a build or deploy ends the job. */
  lemma HowWorkEnds(q: Queue, e: Event, j: Job)
    requires OneRunner(q) && CanHappen(q, e) && WorksOn(q, j) && (e.BuildEnd? || e.DeployEnd?)
    ensures var t := Stepped(q, e);
            && |t.runners| == 1 && t.runners[0].entry == q.runners[0].entry && t.entries == q.entries
            && t.runners[0].phase == (if e.BuildEnd? && e.ok then Deploying(j) else Done)
            && t.last == (if e.DeployEnd? && e.ok && e.bound && j.Push? then Last(Some(j.sha), Some(j.ts)) else q.last)
  {
  }

  // ---- where the job at work comes from --------------------------------------------------------

  /** Step `i` began `j`, which cleared, and `j` has been at work ever since. */
  ghost predicate WorkedSince(run: seq<Event>, at: seq<Queue>, i: nat, n: nat, j: Job)
    requires IsRun(run, at) && n <= |run|
  {
    && i < n && Offered(at[i], run[i]) == Some(j) && Clears(at[i].last, j, ViewOf(run[i]))
    && forall k :: i < k <= n ==> WorksOn(at[k], j)
  }

  /** Since step `i` its build ended well. */
  ghost predicate BuiltSince(run: seq<Event>, i: nat, n: nat)
    requires n <= |run|
  {
    exists b :: i < b < n && run[b].BuildEnd? && run[b].ok
  }

  ghost predicate Accounted(run: seq<Event>, at: seq<Queue>, n: nat, j: Job)
    requires IsRun(run, at) && n <= |run|
  {
    exists i: nat :: WorkedSince(run, at, i, n, j) && (at[n].runners[0].phase == Deploying(j) ==> BuiltSince(run, i, n))
  }

  /** Whatever is at work was at work before, or was begun by this very step. */
  lemma WorkComesFrom(q: Queue, e: Event, j: Job)
    requires OneRunner(q) && CanHappen(q, e) && WorksOn(Stepped(q, e), j)
    ensures WorksOn(q, j) || ((e.Arrive? || e.Take?) && Offered(q, e) == Some(j))
  {
  }

  lemma BeginsAccounted(run: seq<Event>, at: seq<Queue>, n: nat, j: Job)
    requires IsRun(run, at) && n < |run| && OneRunner(at[n]) && WorksOn(at[n + 1], j) && Offered(at[n], run[n]) == Some(j)
    ensures Accounted(run, at, n + 1, j)
  {
    WhatMayBeginDoes(at[n], run[n]);
    assert WorkedSince(run, at, n, n + 1, j);
  }

  lemma StaysAccounted(run: seq<Event>, at: seq<Queue>, n: nat, j: Job)
    requires IsRun(run, at) && n < |run| && OneRunner(at[n]) && WorksOn(at[n + 1], j) && WorksOn(at[n], j)
    requires Accounted(run, at, n, j)
    ensures Accounted(run, at, n + 1, j)
  {
    var i: nat :| WorkedSince(run, at, i, n, j) && (at[n].runners[0].phase == Deploying(j) ==> BuiltSince(run, i, n));
    assert WorkedSince(run, at, i, n + 1, j);
    if at[n + 1].runners[0].phase == Deploying(j) {
      if at[n].runners[0].phase == Deploying(j) {
        var b :| i < b < n && run[b].BuildEnd? && run[b].ok;
        assert i < b < n + 1 && run[b].BuildEnd? && run[b].ok;
      } else {
        assert run[n].BuildEnd? && run[n].ok;
        assert i < n by { assert WorksOn(at[n], j); }
      }
    }
  }

  /** In every state of every run a job being built or deployed was begun by an arrival or a take that found its
      binding standing and, for a push, the policy `allow` and an older deployment recorded; it has been at
      work since; and when it is being deployed its build has ended well. */
  lemma {:induction false} NothingGetsPastTheGate(run: seq<Event>, at: seq<Queue>, n: nat, j: Job)
    requires IsRun(run, at) && n <= |run| && WorksOn(at[n], j)
    ensures Accounted(run, at, n, j)
  {
    if n > 0 {
      AlwaysOneRunner(run, at, n - 1);
      WorkComesFrom(at[n - 1], run[n - 1], j);
      if WorksOn(at[n - 1], j) {
        NothingGetsPastTheGate(run, at, n - 1, j);
        StaysAccounted(run, at, n - 1, j);
      } else {
        BeginsAccounted(run, at, n - 1, j);
      }
    }
  }

  /** What is recorded changes only when a push that got past the gate, and whose build ended well, was
      deployed to a binding that still stands; and then it is that push. */
  lemma OnlyDeployedPushesAreRecorded(run: seq<Event>, at: seq<Queue>, n: nat)
    requires IsRun(run, at) && n < |run| && at[n + 1].last != at[n].last
    ensures && run[n].DeployEnd? && run[n].ok && run[n].bound
            && exists i: nat, j: Job :: WorkedSince(run, at, i, n, j) && BuiltSince(run, i, n) && j.Push?
                                        && at[n + 1].last == Last(Some(j.sha), Some(j.ts))
  {
    AlwaysOneRunner(run, at, n);
    assert run[n].DeployEnd?;
    var j := at[n].runners[0].phase.job;
    HowWorkEnds(at[n], run[n], j);
    NothingGetsPastTheGate(run, at, n, j);
    var i: nat :| WorkedSince(run, at, i, n, j) && (at[n].runners[0].phase == Deploying(j) ==> BuiltSince(run, i, n));
  }
}

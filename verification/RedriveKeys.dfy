/** Which keys the re-driven operations run under, spelled out, and what that keeps everybody else from. */
module RedriveKeys {
  import opened OpLock
  import opened OpContexts
  import opened Redrive

  /** The key of a whole branch, and of one of its services. */
  predicate IsBranchKey(k: Key, b: BranchId) {
    k == b + ":*branch"
  }

  predicate IsServiceKey(k: Key, b: BranchId, s: Svc) {
    k == b + ":" + s
  }

  /** A create needs the project's key, those of the branch it copies and of the branch it makes, and on both
      that of every service of the source, unless it carries none over. A delete needs the branch's and every
      service's; that of a project the project's and all of these. What renames a service, or takes its
      volume, needs on every branch of the project the branch's key and the service's. */
  ghost predicate NamesKey(rows: Rows, task: Task, k: Key) {
    match task
    case Create(p, source, clone, _, bare) =>
      || k == p + ":*project" || IsBranchKey(k, source) || IsBranchKey(k, clone)
      || (!bare && source in rows.branches && exists s :: s in rows.branches[source].services && (IsServiceKey(k, source, s) || IsServiceKey(k, clone, s)))
    case Destroy(b) => OfBranch(rows, b, k)
    case DestroyProject(p) => k == p + ":*project" || exists b :: b in rows.branches && rows.branches[b].project == p && OfBranch(rows, b, k)
    case Rename(p, s) => exists b :: b in rows.branches && rows.branches[b].project == p && (IsBranchKey(k, b) || IsServiceKey(k, b, s))
    case RemoveVolume(p, s) => exists b :: b in rows.branches && rows.branches[b].project == p && (IsBranchKey(k, b) || IsServiceKey(k, b, s))
  }

  ghost predicate OfBranch(rows: Rows, b: BranchId, k: Key) {
    IsBranchKey(k, b) || (b in rows.branches && exists s :: s in rows.branches[b].services && IsServiceKey(k, b, s))
  }

  lemma SpeltKeys(b: BranchId, s: Svc)
    ensures IsBranchKey(BranchKey(b), b) && IsServiceKey(ServiceKey(b, s), b, s)
  {
    assert [MARK] == ":";
    assert b + [MARK] + WHOLE == b + ":*branch";
  }

  lemma InServiceKeys(b: BranchId, services: set<Svc>, k: Key)
    ensures k in ServiceKeys(b, services) <==> exists s :: s in services && IsServiceKey(k, b, s)
  {
    if k in ServiceKeys(b, services) {
      var s :| s in services && k == ServiceKey(b, s);
      SpeltKeys(b, s);
    }
    forall s | s in services && IsServiceKey(k, b, s) ensures k in ServiceKeys(b, services) {
      SpeltKeys(b, s);
    }
  }

  lemma InBranchKeys(rows: Rows, b: BranchId, k: Key)
    ensures k in BranchKeys(rows, b) <==> OfBranch(rows, b, k)
  {
    SpeltKeys(b, "");
    InServiceKeys(b, Services(rows, b), k);
  }

  lemma InWideKeys(rows: Rows, p: ProjectId, s: Svc, k: Key)
    ensures k in WideKeys(rows, p, s) <==>
            exists b :: b in rows.branches && rows.branches[b].project == p && (IsBranchKey(k, b) || IsServiceKey(k, b, s))
  {
    if k in WideKeys(rows, p, s) {
      var b :| b in InProject(rows, p) && k in CarrierKeys(b, s);
      SpeltKeys(b, s);
    }
    forall b | b in rows.branches && rows.branches[b].project == p && (IsBranchKey(k, b) || IsServiceKey(k, b, s)) ensures k in WideKeys(rows, p, s) {
      SpeltKeys(b, s);
      assert b in InProject(rows, p) && k in CarrierKeys(b, s);
    }
  }

  lemma NeededByCreate(rows: Rows, task: Task, k: Key)
    requires task.Create?
    ensures k in Needed(rows, task) <==> NamesKey(rows, task, k)
  {
    SpeltKeys(task.source, "");
    SpeltKeys(task.clone, "");
    InServiceKeys(task.source, Carried(rows, task), k);
    InServiceKeys(task.clone, Carried(rows, task), k);
  }

  lemma NeededByProject(rows: Rows, p: ProjectId, k: Key)
    ensures k in Needed(rows, DestroyProject(p)) <==> NamesKey(rows, DestroyProject(p), k)
  {
    forall b ensures k in BranchKeys(rows, b) <==> OfBranch(rows, b, k) {
      InBranchKeys(rows, b, k);
    }
    if k in Needed(rows, DestroyProject(p)) && k != ProjectKey(p) {
      var b :| b in InProject(rows, p) && k in BranchKeys(rows, b);
    }
    if b :| b in rows.branches && rows.branches[b].project == p && OfBranch(rows, b, k) {
      assert b in InProject(rows, p) && k in BranchKeys(rows, b);
    }
  }

  /** What an operation needs is exactly the keys it names. */
  lemma KeysAre(rows: Rows, task: Task, k: Key)
    ensures k in Needed(rows, task) <==> NamesKey(rows, task, k)
  {
    match task
    case Create(_, _, _, _, _) => NeededByCreate(rows, task, k);
    case Destroy(b) => InBranchKeys(rows, b, k);
    case DestroyProject(p) => NeededByProject(rows, p, k);
    case Rename(p, s) => InWideKeys(rows, p, s, k);
    case RemoveVolume(p, s) => InWideKeys(rows, p, s, k);
  }

  /** While an operation is in its body, no other context owns any of its keys, as the rows stand then: in every
      state of every run in which no add overtakes one. */
  lemma NobodyElseOwns(run: seq<Step>, at: seq<World>, n: nat, c: CtxId, d: CtxId, k: Key)
    requires IsRun(run, at) && n <= |run| && NeverOvertaken(run, at, n)
    requires c in at[n].drivers && at[n].drivers[c].phase.InBody? && NamesKey(at[n].rows, at[n].drivers[c].task, k)
    requires c != d && Live(at[n].sys, d)
    ensures Live(at[n].sys, c) && k in Held(at[n].sys, c) && k !in Held(at[n].sys, d)
  {
    var w := at[n];
    BodiesAlwaysHold(run, at, n);
    WorldAlwaysOk(run, at, n);
    KeysAre(w.rows, w.drivers[c].task, k);
    assert DriverOk(w.sys, c, w.drivers[c]);
    var t :| t in w.sys.ctxs[c].stack && 0 <= t < |w.sys.lock.tickets| && k in w.sys.lock.tickets[t].keys;
    forall u | u in w.sys.ctxs[d].stack && 0 <= u < |w.sys.lock.tickets| ensures k !in w.sys.lock.tickets[u].keys {
      OneTicketPerKey(w.sys, t, u, c, d, k);
    }
  }
}

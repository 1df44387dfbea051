/** What each step on the claims of src/engine.ts brings about, over the rows, ports and reservations alone:
    what a create and a deploy are given, what they leave behind, and that no reservation outlives them. */
module ClaimEffects {
  import opened Claims
  import opened ClaimRuns

  // ---- no reservation outlives its operation ---------------------------------------------------

  /** A create in flight has the ref. */
  ghost predicate RefBacked(s: State, ref: Ref) {
    ref in s.branchReservations ==>
      exists op :: op in s.ops && s.ops[op].Creating? && s.ops[op].branch == s.branchReservations[ref] && s.ops[op].row.ref == ref
  }

  /** The operation has picked the port and is still under way. */
  predicate HasPicked(s: State, op: OpId, branch: BranchId, p: Port) {
    && op in s.ops && !s.ops[op].Choosing? && s.ops[op].branch == branch
    && (s.ops[op].Creating? ==> p in s.ops[op].lanes.Values)
    && (s.ops[op].Deploying? ==> s.ops[op].origin.Ranged? && s.ops[op].port == Some(p))
  }

  ghost predicate PortBacked(s: State, p: Port) {
    p in s.laneReservations ==> exists op :: HasPicked(s, op, s.laneReservations[p], p)
  }

  /** A port is picked out of the range only for a group that has none. */
  predicate PicksFirst(s: State, op: OpId) {
    op in s.ops && s.ops[op].Deploying? && s.ops[op].origin.Ranged? ==> s.ops[op].prior == None && s.ops[op].port.Some?
  }

  ghost predicate Backed(s: State) {
    (forall ref :: RefBacked(s, ref)) && (forall p :: PortBacked(s, p)) && (forall op :: PicksFirst(s, op))
  }

  /** No reservation is new but one that has its operation, and no operation goes but with what it has. */
  lemma FewerReservations(s: State, t: State)
    requires Backed(s)
    requires forall op :: op in s.ops && op in t.ops ==> t.ops[op] == s.ops[op]
    requires forall op :: op in t.ops && op !in s.ops ==> PicksFirst(t, op)
    requires forall ref :: ref in t.branchReservations ==>
               RefBacked(t, ref) || (ref in s.branchReservations && s.branchReservations[ref] == t.branchReservations[ref])
    requires forall p :: p in t.laneReservations ==> PortBacked(t, p) || (p in s.laneReservations && s.laneReservations[p] == t.laneReservations[p])
    requires forall op, ref :: op in s.ops && op !in t.ops && s.ops[op].Creating? && s.ops[op].row.ref == ref ==>
               !(ref in t.branchReservations && t.branchReservations[ref] == s.ops[op].branch)
    requires forall op, branch, p :: op !in t.ops && HasPicked(s, op, branch, p) ==>
               !(p in t.laneReservations && t.laneReservations[p] == branch)
    ensures Backed(t)
  {
    forall ref ensures RefBacked(t, ref) {
      assert RefBacked(s, ref);
    }
    forall p ensures PortBacked(t, p) {
      if p in t.laneReservations && !PortBacked(t, p) {
        assert PortBacked(s, p);
        var op :| HasPicked(s, op, s.laneReservations[p], p);
        assert HasPicked(t, op, t.laneReservations[p], p);
      }
    }
    forall op ensures PicksFirst(t, op) {
      assert PicksFirst(s, op);
    }
  }

  lemma ReserveBacked(s: State, op: OpId, branch: BranchId, row: Row)
    requires Backed(s) && op !in s.ops
    ensures Backed(Reserved(s, op, branch, row))
  {
    var t := Reserved(s, op, branch, row);
    if !RefTaken(s, row, branch) {
      assert op in t.ops && t.ops[op].Creating?;
      assert RefBacked(t, row.ref);
    }
    FewerReservations(s, t);
  }

  lemma AbandonBacked(s: State, op: OpId)
    requires Backed(s) && op in s.ops && s.ops[op].Creating? && s.ops[op].lanes == map[]
    ensures Backed(Abandoned(s, op))
  {
    FewerReservations(s, Abandoned(s, op));
  }

  lemma AllocateBacked(s: State, op: OpId, ids: seq<Svc>, r: Range)
    requires Backed(s) && op in s.ops && s.ops[op].Creating? && s.ops[op].lanes == map[]
    ensures Backed(LanesAllocated(s, op, ids, r))
  {
    var out := Allocated(r, TakenLanePorts(s), ids);
    if out.None? {
      AbandonBacked(s, op);
    } else {
      var t := LanesClaimed(s, op, out.value);
      forall ref ensures RefBacked(t, ref) {
        assert RefBacked(s, ref);
        if ref in s.branchReservations {
          var q :| q in s.ops && s.ops[q].Creating? && s.ops[q].branch == s.branchReservations[ref] && s.ops[q].row.ref == ref;
          assert q in t.ops && t.ops[q].Creating?;
        }
      }
      forall p ensures PortBacked(t, p) {
        if p in out.value.Values {
          assert HasPicked(t, op, s.ops[op].branch, p);
        } else if p in s.laneReservations {
          assert PortBacked(s, p);
          var q :| HasPicked(s, q, s.laneReservations[p], p);
          assert HasPicked(t, q, s.laneReservations[p], p);
        }
      }
      forall q ensures PicksFirst(t, q) {
        assert PicksFirst(s, q);
      }
    }
  }

  /** Only what a create has written under its root changes of it. */
  lemma WriteBacked(s: State, op: OpId)
    requires Backed(s) && op in s.ops && s.ops[op].Creating?
    ensures Backed(Wrote(s, op))
  {
    var t := Wrote(s, op);
    forall ref ensures RefBacked(t, ref) {
      assert RefBacked(s, ref);
      if ref in s.branchReservations {
        var q :| q in s.ops && s.ops[q].Creating? && s.ops[q].branch == s.branchReservations[ref] && s.ops[q].row.ref == ref;
        assert q in t.ops && t.ops[q].Creating?;
      }
    }
    forall p ensures PortBacked(t, p) {
      assert PortBacked(s, p);
      if p in s.laneReservations {
        var q :| HasPicked(s, q, s.laneReservations[p], p);
        assert HasPicked(t, q, s.laneReservations[p], p);
      }
    }
    forall q ensures PicksFirst(t, q) {
      assert PicksFirst(s, q);
    }
  }

  lemma CommitBacked(s: State, op: OpId)
    requires Backed(s) && op in s.ops && s.ops[op].Creating?
    ensures Backed(Committed(s, op))
  {
    FewerReservations(s, Committed(s, op));
  }

  lemma RollbackBacked(s: State, op: OpId, removed: bool)
    requires Backed(s) && op in s.ops && s.ops[op].Creating?
    ensures Backed(RolledBack(s, op, removed))
  {
    FewerReservations(s, RolledBack(s, op, removed));
  }

  lemma OpenBacked(s: State, op: OpId, o: Op)
    requires Backed(s) && o.Deploying? && (o.origin.Ranged? ==> o.port.Some? && o.prior == None)
    requires op in s.ops ==> s.ops[op].Choosing?
    ensures Backed(Opened(s, op, o))
  {
    var t := Opened(s, op, o);
    forall ref ensures RefBacked(t, ref) {
      assert RefBacked(s, ref);
      if ref in s.branchReservations {
        var q :| q in s.ops && s.ops[q].Creating? && s.ops[q].branch == s.branchReservations[ref] && s.ops[q].row.ref == ref;
        assert q in t.ops && t.ops[q].Creating?;
      }
    }
    forall p ensures PortBacked(t, p) {
      if o.origin.Ranged? && p == o.port.value {
        assert HasPicked(t, op, o.branch, p);
      } else if p in t.laneReservations {
        assert PortBacked(s, p);
        var q :| HasPicked(s, q, s.laneReservations[p], p);
        assert HasPicked(t, q, s.laneReservations[p], p);
      }
    }
    forall q ensures PicksFirst(t, q) {
      assert PicksFirst(s, q);
    }
  }

  lemma EndBacked(s: State, op: OpId, end: End)
    requires Backed(s) && op in s.ops && s.ops[op].Deploying?
    ensures Backed(DeployEnded(s, op, end))
  {
    assert PicksFirst(s, op);
    EndReleases(s, op, end);
    OneGone(s, DeployEnded(s, op, end), op);
  }

  lemma EndReleases(s: State, op: OpId, end: End)
    requires op in s.ops && s.ops[op].Deploying? && PicksFirst(s, op)
    ensures var t := DeployEnded(s, op, end);
            && t.branchReservations == s.branchReservations
            && (forall p :: p in t.laneReservations ==> p in s.laneReservations && t.laneReservations[p] == s.laneReservations[p])
            && (s.ops[op].origin.Ranged? ==> s.ops[op].port.value !in t.laneReservations)
            && (forall q :: q != op ==> (q in t.ops <==> q in s.ops) && (q in t.ops ==> t.ops[q] == s.ops[q]))
            && (op in t.ops ==> t.ops[op].Choosing?)
  {
  }

  /** A deploy ends, or goes back to choosing, and what it picked is no longer reserved. */
  lemma OneGone(s: State, t: State, op: OpId)
    requires Backed(s) && op in s.ops && s.ops[op].Deploying? && t.branchReservations == s.branchReservations
    requires forall q :: q != op ==> (q in t.ops <==> q in s.ops) && (q in t.ops ==> t.ops[q] == s.ops[q])
    requires op in t.ops ==> t.ops[op].Choosing?
    requires forall p :: p in t.laneReservations ==> p in s.laneReservations && t.laneReservations[p] == s.laneReservations[p]
    requires s.ops[op].origin.Ranged? && s.ops[op].port.Some? ==> s.ops[op].port.value !in t.laneReservations
    ensures Backed(t)
  {
    forall ref ensures RefBacked(t, ref) {
      assert RefBacked(s, ref);
    }
    forall p ensures PortBacked(t, p) {
      if p in t.laneReservations {
        assert PortBacked(s, p);
        var q :| HasPicked(s, q, s.laneReservations[p], p);
        assert HasPicked(t, q, s.laneReservations[p], p);
      }
    }
    forall q ensures PicksFirst(t, q) {
      assert PicksFirst(s, q);
    }
  }

  lemma ChoosingBacked(s: State, t: State, op: OpId)
    requires Backed(s) && t.branchReservations == s.branchReservations && t.laneReservations == s.laneReservations
    requires forall q :: q != op ==> (q in t.ops <==> q in s.ops) && (q in t.ops ==> t.ops[q] == s.ops[q])
    requires (op in s.ops ==> s.ops[op].Choosing?) && (op in t.ops ==> t.ops[op].Choosing?)
    ensures Backed(t)
  {
    forall ref ensures RefBacked(t, ref) {
      assert RefBacked(s, ref);
    }
    forall p ensures PortBacked(t, p) {
      assert PortBacked(s, p);
      if p in s.laneReservations {
        var q :| HasPicked(s, q, s.laneReservations[p], p);
        assert HasPicked(t, q, s.laneReservations[p], p);
      }
    }
    forall q ensures PicksFirst(t, q) {
      assert PicksFirst(s, q);
    }
  }

  lemma StartBacked(s: State, e: Event)
    requires Backed(s) && CanHappen(s, e) && e.StartDeploy?
    ensures Backed(Stepped(s, e))
  {
    var prior := PriorPort(s, e.branch, e.group);
    var t := Stepped(s, e);
    if !e.local {
      OpenBacked(s, e.op, Deploying(e.branch, e.group, e.listen, None, Given, prior, Once));
    } else if e.named.Some? {
      OpenBacked(s, e.op, Deploying(e.branch, e.group, e.listen, e.named, Given, prior, Once));
    } else if prior.Some? {
      OpenBacked(s, e.op, Deploying(e.branch, e.group, e.listen, Some(prior.value.port), Given, prior, Once));
    } else {
      var p := Next(e.range, TakenLanePorts(s));
      if p.Some? {
        OpenBacked(s, e.op, Deploying(e.branch, e.group, e.listen, p, Ranged, prior, Once));
      }
    }
  }

  lemma CloneBacked(s: State, e: Event)
    requires Backed(s) && CanHappen(s, e) && e.StartClone?
    ensures Backed(Stepped(s, e))
  {
    var t := Stepped(s, e);
    OpenBacked(s, e.op, t.ops[e.op]);
  }

  lemma CreateBacked(s: State, e: Event)
    requires Backed(s) && CanHappen(s, e)
    requires e.Reserve? || e.Abandon? || e.Allocate? || e.Write? || e.Commit? || e.Rollback?
    ensures Backed(Stepped(s, e))
  {
    match e
    case Reserve(op, branch, row) => ReserveBacked(s, op, branch, row);
    case Abandon(op) => AbandonBacked(s, op);
    case Allocate(op, ids, r) => AllocateBacked(s, op, ids, r);
    case Write(op) => WriteBacked(s, op);
    case Commit(op) => CommitBacked(s, op);
    case Rollback(op, removed) => RollbackBacked(s, op, removed);
  }

  lemma StepBacked(s: State, e: Event)
    requires Backed(s) && CanHappen(s, e)
    ensures Backed(Stepped(s, e))
  {
    if e.Reserve? || e.Abandon? || e.Allocate? || e.Write? || e.Commit? || e.Rollback? {
      CreateBacked(s, e);
    } else if e.StartDeploy? {
      StartBacked(s, e);
    } else if e.StartClone? {
      CloneBacked(s, e);
    } else if e.EndDeploy? {
      EndBacked(s, e.op, e.end);
    } else if e.ListPorts? || e.StopClone? {
      ChoosingBacked(s, Stepped(s, e), e.op);
    } else {
      RowsBacked(s, e);
    }
  }

  lemma RowsBacked(s: State, e: Event)
    requires Backed(s) && CanHappen(s, e)
    requires e.AddData? || e.Drop? || e.RenameBranch? || e.RenameGroup? || e.ReadLane? || e.MoveLane?
    ensures Backed(Stepped(s, e))
  {
    if e.Drop? {
      DropBacked(s, e.branch, e.unwinding);
    } else if e.ReadLane? || e.MoveLane? {
      LaneBacked(s, e);
    } else {
      SameBacked(s, Stepped(s, e));
    }
  }

  lemma SameBacked(s: State, t: State)
    requires Backed(s) && t.ops == s.ops && t.branchReservations == s.branchReservations && t.laneReservations == s.laneReservations
    ensures Backed(t)
  {
    forall ref ensures RefBacked(t, ref) {
      assert RefBacked(s, ref);
    }
    forall p ensures PortBacked(t, p) {
      assert PortBacked(s, p);
      if p in s.laneReservations {
        var q :| HasPicked(s, q, s.laneReservations[p], p);
        assert HasPicked(t, q, s.laneReservations[p], p);
      }
    }
    forall q ensures PicksFirst(t, q) {
      assert PicksFirst(s, q);
    }
  }

  lemma DropBacked(s: State, branch: BranchId, unwinding: bool)
    requires Backed(s) && branch in s.rows
    ensures Backed(Dropped(s, branch, unwinding))
  {
    FewerReservations(s, Dropped(s, branch, unwinding));
  }

  lemma LaneBacked(s: State, e: Event)
    requires Backed(s) && CanHappen(s, e) && (e.ReadLane? || e.MoveLane?)
    ensures Backed(Stepped(s, e))
  {
    FewerReservations(s, Stepped(s, e));
  }

  /** In every state of every run each reserved ref is that of a create in flight and each reserved port was
      picked for a create or a deploy in flight: whatever fails or goes, nothing stays reserved for good. */
  lemma {:induction false} NoReservationIsLeft(run: seq<Event>, at: seq<State>, n: nat)
    requires IsRun(run, at) && n <= |run|
    ensures Backed(at[n])
  {
    if n > 0 {
      NoReservationIsLeft(run, at, n - 1);
      StepBacked(at[n - 1], run[n - 1]);
    } else {
      assert at[0] == Empty();
    }
  }

  // ---- what a create is given and leaves -------------------------------------------------------

  /** A create gets its ref exactly when no branch of its project has its name, no branch has its ref and no
      other create holds that; what is refused leaves everything as it was. */
  lemma WhatACreateIsGiven(s: State, op: OpId, branch: BranchId, row: Row)
    requires CanHappen(s, Reserve(op, branch, row))
    ensures var t := Stepped(s, Reserve(op, branch, row));
            var free := && (forall b :: b in s.rows ==> s.rows[b].ref != row.ref && !(s.rows[b].project == row.project && s.rows[b].name == row.name))
                        && (row.ref in s.branchReservations ==> s.branchReservations[row.ref] == branch);
            if !free then t == s
            else && op in t.ops && t.ops[op] == Creating(branch, row, map[], false)
                 && row.ref in t.branchReservations && t.branchReservations[row.ref] == branch
                 && t.rows == s.rows && t.roots == s.roots && t.lanes == s.lanes && t.apps == s.apps
  {
  }

  /** Its commit writes its row with the lanes it was given, whichever those are, and touches no other
      branch; nothing of it is in flight or reserved any more. */
  lemma WhatACommitLeaves(s: State, op: OpId)
    requires CanHappen(s, Commit(op))
    ensures var t, o := Stepped(s, Commit(op)), s.ops[op];
            && o.branch in t.rows && t.rows[o.branch] == o.row && o.branch in t.lanes && t.lanes[o.branch] == o.lanes
            && (forall b :: b != o.branch ==> (b in t.rows <==> b in s.rows) && (b in t.lanes <==> b in s.lanes))
            && (forall b :: b != o.branch && b in s.rows ==> t.rows[b] == s.rows[b])
            && (forall b :: b != o.branch && b in s.lanes ==> t.lanes[b] == s.lanes[b])
            && t.apps == s.apps && t.roots == s.roots && op !in t.ops
            && (forall p :: p in t.laneReservations ==> t.laneReservations[p] != o.branch)
            && !(o.row.ref in t.branchReservations && t.branchReservations[o.row.ref] == o.branch)
  {
  }

  /** One that fails writes nothing: its root goes, if its removal works, and what it held is free again. */
  lemma WhatARollbackLeaves(s: State, op: OpId, removed: bool)
    requires RefInv(s) && CanHappen(s, Rollback(op, removed))
    ensures var t, o := Stepped(s, Rollback(op, removed)), s.ops[op];
            && t.rows == s.rows && t.lanes == s.lanes && t.apps == s.apps && op !in t.ops
            && (o.row.ref in t.roots <==> !removed && o.row.ref in s.roots)
            && (forall ref :: ref != o.row.ref ==> (ref in t.roots <==> ref in s.roots) && Under(t, ref) == Under(s, ref))
            && o.row.ref !in t.branchReservations && forall p :: p in t.laneReservations ==> t.laneReservations[p] != o.branch
  {
    assert CreateOk(s, op);
  }

  /** The lowest port of the range that is on no row, on no app and not reserved, and that nothing listens on. */
  predicate IsLowestFree(s: State, r: Range, p: Port) {
    r.lo <= p <= r.hi && IsFree(s, r, p) && forall q :: r.lo <= q < p ==> !IsFree(s, r, q)
  }

  predicate IsFree(s: State, r: Range, p: Port) {
    && (forall b :: b in s.lanes ==> p !in s.lanes[b].Values)
    && (forall k :: k in s.apps && s.apps[k].host.Some? ==> s.apps[k].host.value.port != p)
    && p !in s.laneReservations && p !in r.busy
  }

  lemma FreeIs(s: State, r: Range, p: Port)
    ensures IsFree(s, r, p) <==> p !in TakenLanePorts(s) && p !in r.busy
  {
    if p in LanePorts(s) {
      var b, svc :| b in s.lanes && svc in s.lanes[b] && s.lanes[b][svc] == p;
      assert p in s.lanes[b].Values;
    }
    forall b | b in s.lanes && p in s.lanes[b].Values ensures p in LanePorts(s) {
      var svc :| svc in s.lanes[b] && s.lanes[b][svc] == p;
    }
  }

  /** A create that ends before it made anything only gives its ref back. */
  lemma WhatAnAbandonLeaves(s: State, op: OpId)
    requires CanHappen(s, Abandon(op))
    ensures var t, o := Stepped(s, Abandon(op)), s.ops[op];
            && t == s.(branchReservations := t.branchReservations, ops := t.ops) && op !in t.ops
            && !(o.row.ref in t.branchReservations && t.branchReservations[o.row.ref] == o.branch)
            && forall ref :: ref in s.branchReservations && s.branchReservations[ref] != o.branch ==>
                               ref in t.branchReservations && t.branchReservations[ref] == s.branchReservations[ref]
  {
  }

  /** A branch that goes takes its lanes, its apps' ports and what stands under its root along, and leaves every
      other branch as it is. */
  lemma WhatADropLeaves(s: State, b: BranchId, unwinding: bool)
    requires CanHappen(s, Drop(b, unwinding))
    ensures var t := Stepped(s, Drop(b, unwinding));
            && (forall a :: a in t.rows <==> a in s.rows && a != b) && (forall a :: a in t.rows ==> t.rows[a] == s.rows[a])
            && (forall a :: a in t.lanes <==> a in s.lanes && a != b) && (forall a :: a in t.lanes ==> t.lanes[a] == s.lanes[a])
            && (forall k :: k in t.apps <==> k in s.apps && k.0 != b) && (forall k :: k in t.apps ==> t.apps[k] == s.apps[k])
            && (forall ref :: ref in t.roots <==> ref in s.roots && ref != s.rows[b].ref) && (forall ref :: ref in t.roots ==> t.roots[ref] == s.roots[ref])
            && t.ops == s.ops
            && (forall p :: p in s.laneReservations && s.laneReservations[p] != b ==> p in t.laneReservations && t.laneReservations[p] == s.laneReservations[p])
            && (forall ref :: ref in s.branchReservations && s.branchReservations[ref] != b ==>
                                ref in t.branchReservations && t.branchReservations[ref] == s.branchReservations[ref])
  {
  }

  /** The next port is the lowest free one, and there is none when none of the range is free. */
  lemma NextIsLowest(s: State, r: Range)
    ensures var p := Next(r, TakenLanePorts(s));
            if p.Some? then IsLowestFree(s, r, p.value) else forall q :: r.lo <= q <= r.hi ==> !IsFree(s, r, q)
  {
    forall q ensures IsFree(s, r, q) <==> q !in TakenLanePorts(s) && q !in r.busy {
      FreeIs(s, r, q);
    }
  }

  // ---- the lanes of a create -------------------------------------------------------------------

  function FreePorts(s: State, r: Range): set<Port> {
    set q | r.lo <= q <= r.hi && IsFree(s, r, q)
  }

  /** Service `ids[i]` has the lowest of the free ports that none before it has. */
  predicate HasTheNext(free: set<Port>, ids: seq<Svc>, lanes: map<Svc, Port>, i: nat) {
    && i < |ids| && ids[i] in lanes && lanes[ids[i]] in free
    && (forall j :: 0 <= j < i ==> ids[j] in lanes && lanes[ids[j]] != lanes[ids[i]])
    && forall q :: q in free && q < lanes[ids[i]] ==> exists j :: 0 <= j < i && ids[j] in lanes && lanes[ids[j]] == q
  }

  ghost predicate AllHaveTheNext(free: set<Port>, ids: seq<Svc>, lanes: map<Svc, Port>) {
    forall i: nat :: i < |ids| ==> HasTheNext(free, ids, lanes, i)
  }

  /** Each of the services has a free port of its own. */
  ghost predicate HaveTheirOwn(free: set<Port>, ids: seq<Svc>, lanes: map<Svc, Port>) {
    (forall svc :: svc in lanes <==> svc in ids) && lanes.Values <= free && |lanes.Values| == |ids|
  }

  /** The ports are dealt out in turn, and that ends early only when no free one is left. */
  lemma {:induction false} DealtOut(s: State, r: Range, ids: seq<Svc>)
    requires Distinct(ids)
    ensures var out := Allocated(r, TakenLanePorts(s), ids);
            if out.Some? then HaveTheirOwn(FreePorts(s, r), ids, out.value) else |FreePorts(s, r)| < |ids|
  {
    if ids == [] {
      var none: map<Svc, Port> := map[];
      assert none.Values == {};
    } else {
      var init := ids[..|ids| - 1];
      DealtOut(s, r, init);
      var out := Allocated(r, TakenLanePorts(s), init);
      if out.Some? {
        NextAfter(s, r, out.value.Values);
        var next := Next(r, TakenLanePorts(s) + out.value.Values);
        if next.None? {
          SmallerSet(FreePorts(s, r), out.value.Values);
        } else {
          OneMoreLane(FreePorts(s, r), ids, out.value, next.value);
        }
      }
    }
  }

  lemma {:induction false} DealtInTurn(s: State, r: Range, ids: seq<Svc>)
    requires Distinct(ids) && Allocated(r, TakenLanePorts(s), ids).Some?
    ensures AllHaveTheNext(FreePorts(s, r), ids, Allocated(r, TakenLanePorts(s), ids).value)
  {
    if ids != [] {
      var init := ids[..|ids| - 1];
      DealtOut(s, r, init);
      DealtInTurn(s, r, init);
      var lanes := Allocated(r, TakenLanePorts(s), init).value;
      NextAfter(s, r, lanes.Values);
      OneMoreTurn(FreePorts(s, r), ids, lanes, Next(r, TakenLanePorts(s) + lanes.Values).value);
    }
  }

  lemma NextAfter(s: State, r: Range, dealt: set<Port>)
    ensures var next := Next(r, TakenLanePorts(s) + dealt);
            if next.None? then FreePorts(s, r) <= dealt
            else next.value in FreePorts(s, r) && next.value !in dealt && forall q :: q in FreePorts(s, r) && q < next.value ==> q in dealt
  {
    forall q ensures IsFree(s, r, q) <==> q !in TakenLanePorts(s) && q !in r.busy {
      FreeIs(s, r, q);
    }
  }

  lemma OneMoreLane(free: set<Port>, ids: seq<Svc>, lanes: map<Svc, Port>, p: Port)
    requires ids != [] && Distinct(ids) && HaveTheirOwn(free, ids[..|ids| - 1], lanes) && p in free && p !in lanes.Values
    ensures HaveTheirOwn(free, ids, lanes[ids[|ids| - 1] := p])
  {
    OneMoreKey(ids, lanes, p);
    OneMoreValue(lanes, ids[|ids| - 1], p);
  }

  lemma OneMoreKey(ids: seq<Svc>, lanes: map<Svc, Port>, p: Port)
    requires ids != [] && Distinct(ids) && forall svc :: svc in lanes <==> svc in ids[..|ids| - 1]
    ensures ids[|ids| - 1] !in lanes && forall svc :: svc in lanes[ids[|ids| - 1] := p] <==> svc in ids
  {
    var init, last := ids[..|ids| - 1], ids[|ids| - 1];
    forall svc ensures svc in ids <==> svc in init || svc == last {
      assert ids == init + [last];
    }
  }

  lemma OneMoreValue(lanes: map<Svc, Port>, svc: Svc, p: Port)
    requires svc !in lanes && p !in lanes.Values
    ensures lanes[svc := p].Values == lanes.Values + {p} && |lanes[svc := p].Values| == |lanes.Values| + 1
  {
    var more := lanes[svc := p];
    assert more[svc] == p;
    forall q | q in lanes.Values ensures q in more.Values {
      var a :| a in lanes && lanes[a] == q;
      assert more[a] == q;
    }
  }

  lemma OneMoreTurn(free: set<Port>, ids: seq<Svc>, lanes: map<Svc, Port>, p: Port)
    requires ids != [] && Distinct(ids) && HaveTheirOwn(free, ids[..|ids| - 1], lanes) && AllHaveTheNext(free, ids[..|ids| - 1], lanes)
    requires p in free && p !in lanes.Values && forall q :: q in free && q < p ==> q in lanes.Values
    ensures AllHaveTheNext(free, ids, lanes[ids[|ids| - 1] := p])
  {
    var more := lanes[ids[|ids| - 1] := p];
    forall i: nat | i < |ids| ensures HasTheNext(free, ids, more, i) {
      if i < |ids| - 1 {
        StillHasTheNext(free, ids, lanes, p, i);
      } else {
        LastHasTheNext(free, ids, lanes, p);
      }
    }
  }

  lemma LastHasTheNext(free: set<Port>, ids: seq<Svc>, lanes: map<Svc, Port>, p: Port)
    requires ids != [] && Distinct(ids) && forall svc :: svc in lanes <==> svc in ids[..|ids| - 1]
    requires p in free && p !in lanes.Values && forall q :: q in free && q < p ==> q in lanes.Values
    ensures HasTheNext(free, ids, lanes[ids[|ids| - 1] := p], |ids| - 1)
  {
    var n := |ids| - 1;
    var more := lanes[ids[n] := p];
    forall j | 0 <= j < n ensures ids[j] in lanes && ids[j] in more && more[ids[j]] == lanes[ids[j]] && lanes[ids[j]] != p {
      assert ids[..n][j] == ids[j];
      assert ids[j] in lanes && lanes[ids[j]] in lanes.Values;
    }
    forall q | q in free && q < p ensures exists j :: 0 <= j < n && ids[j] in more && more[ids[j]] == q {
      var svc :| svc in lanes && lanes[svc] == q;
      var j :| 0 <= j < n && ids[..n][j] == svc;
      assert ids[j] in more && more[ids[j]] == q;
    }
  }

  lemma StillHasTheNext(free: set<Port>, ids: seq<Svc>, lanes: map<Svc, Port>, p: Port, i: nat)
    requires ids != [] && Distinct(ids) && HasTheNext(free, ids[..|ids| - 1], lanes, i)
    ensures HasTheNext(free, ids, lanes[ids[|ids| - 1] := p], i)
  {
    var init := ids[..|ids| - 1];
    var more := lanes[ids[|ids| - 1] := p];
    forall j | 0 <= j <= i ensures ids[j] in more && more[ids[j]] == lanes[init[j]] {
      assert init[j] == ids[j];
    }
    forall q | q in free && q < more[ids[i]] ensures exists j :: 0 <= j < i && ids[j] in more && more[ids[j]] == q {
      var j :| 0 <= j < i && init[j] in lanes && lanes[init[j]] == q;
      assert ids[j] in more && more[ids[j]] == q;
    }
  }

  lemma SmallerSet(a: set<Port>, b: set<Port>)
    requires a <= b
    ensures |a| <= |b|
  {
    assert |b| == |a| + |b - a| by {
      assert b == a + (b - a);
    }
  }

  /** The ports are reserved for the branch, and the others as they were. */
  ghost predicate ReservedFor(b: BranchId, ports: set<Port>, before: map<Port, BranchId>, after: map<Port, BranchId>) {
    && (forall p :: p in after <==> p in before || p in ports)
    && forall p :: p in after ==> after[p] == if p in ports then b else before[p]
  }

  /** A create goes on exactly when no fewer ports are free than it has services; otherwise it ends, and only
      gives its ref back. */
  lemma LanesOrNothing(s: State, op: OpId, ids: seq<Svc>, r: Range)
    requires CanHappen(s, Allocate(op, ids, r))
    ensures var t, o := Stepped(s, Allocate(op, ids, r)), s.ops[op];
            && (op in t.ops <==> |FreePorts(s, r)| >= |ids|)
            && (op !in t.ops ==>
                  && t == s.(branchReservations := t.branchReservations, ops := t.ops)
                  && !(o.row.ref in t.branchReservations && t.branchReservations[o.row.ref] == o.branch))
  {
    DealtOut(s, r, ids);
    var out := Allocated(r, TakenLanePorts(s), ids);
    if out.Some? {
      SmallerSet(out.value.Values, FreePorts(s, r));
    }
  }

  /** One that goes on has a lane for each of its services, each the lowest port that was free and none before it
      has; all are reserved for it, and nothing else changes. */
  lemma WhatLanesACreateIsGiven(s: State, op: OpId, ids: seq<Svc>, r: Range)
    requires CanHappen(s, Allocate(op, ids, r)) && op in Stepped(s, Allocate(op, ids, r)).ops
    ensures var t, o := Stepped(s, Allocate(op, ids, r)), s.ops[op];
            && t == s.(laneReservations := t.laneReservations, ops := t.ops)
            && t.ops[op].Creating? && t.ops[op] == o.(lanes := t.ops[op].lanes)
            && (forall svc :: svc in t.ops[op].lanes <==> svc in ids) && AllHaveTheNext(FreePorts(s, r), ids, t.ops[op].lanes)
            && ReservedFor(o.branch, t.ops[op].lanes.Values, s.laneReservations, t.laneReservations)
  {
    assert Allocated(r, TakenLanePorts(s), ids).Some?;
    DealtOut(s, r, ids);
    DealtInTurn(s, r, ids);
    var lanes := Allocated(r, TakenLanePorts(s), ids).value;
    ClaimedForIt(s, op, lanes);
  }

  lemma ClaimedForIt(s: State, op: OpId, lanes: map<Svc, Port>)
    requires op in s.ops && s.ops[op].Creating?
    ensures ReservedFor(s.ops[op].branch, lanes.Values, s.laneReservations, LanesClaimed(s, op, lanes).laneReservations)
  {
  }

  // ---- what a deploy is given and leaves -------------------------------------------------------

  predicate RowsStay(s: State, t: State) {
    t.rows == s.rows && t.lanes == s.lanes && t.roots == s.roots && t.branchReservations == s.branchReservations
  }

  /** A deploy publishes nothing in server mode. Otherwise it publishes on the port it names; if it names none,
      on the one its row has; and if there is none on the lowest free one, which is reserved for its branch.
      Without a free one nothing happens. */
  lemma WhatADeployIsGiven(s: State, op: OpId, b: BranchId, g: Group, listen: Port, named: Option<Port>, local: bool, r: Range)
    requires CanHappen(s, StartDeploy(op, b, g, listen, named, local, r))
    ensures var t := Stepped(s, StartDeploy(op, b, g, listen, named, local, r));
            var has := (b, g) in s.apps && s.apps[(b, g)].host.Some?;
            && RowsStay(s, t) && t.apps == s.apps
            && (local && named.None? && !has && (forall q :: r.lo <= q <= r.hi ==> !IsFree(s, r, q)) ==> t == s)
            && (t != s ==>
                  && op in t.ops && t.ops[op].Deploying? && t.ops[op].branch == b && t.ops[op].group == g && t.ops[op].listen == listen
                  && var port := t.ops[op].port;
                     if !local then port == None && t.laneReservations == s.laneReservations
                     else if named.Some? then port == named && t.laneReservations == s.laneReservations
                     else if has then port == Some(s.apps[(b, g)].host.value.port) && t.laneReservations == s.laneReservations
                     else port.Some? && IsLowestFree(s, r, port.value) && t.laneReservations == s.laneReservations[port.value := b])
  {
    NextIsLowest(s, r);
  }

  /** And always something happens where something can. */
  lemma ADeployGoesOn(s: State, op: OpId, b: BranchId, g: Group, listen: Port, named: Option<Port>, local: bool, r: Range, q: Port)
    requires CanHappen(s, StartDeploy(op, b, g, listen, named, local, r))
    requires !local || named.Some? || ((b, g) in s.apps && s.apps[(b, g)].host.Some?) || (r.lo <= q <= r.hi && IsFree(s, r, q))
    ensures op in Stepped(s, StartDeploy(op, b, g, listen, named, local, r)).ops
  {
    NextIsLowest(s, r);
  }

  predicate OtherAppsStay(s: State, t: State, b: BranchId, g: Group) {
    (forall k :: k in t.apps && k != (b, g) ==> k in s.apps) && forall k :: k in s.apps && k != (b, g) ==> k in t.apps && t.apps[k] == s.apps[k]
  }

  predicate OtherReservationsStay(s: State, t: State, port: Option<Port>) {
    forall p :: p in s.laneReservations && port != Some(p) ==> p in t.laneReservations && t.laneReservations[p] == s.laneReservations[p]
  }

  /** A deploy whose row is written leaves its group on the port it was given, listening on what it said, and
      nothing reserved of that port. */
  lemma WhatADeployLeaves(s: State, op: OpId)
    requires CanHappen(s, EndDeploy(op, Written))
    ensures var t, o := Stepped(s, EndDeploy(op, Written)), s.ops[op];
            && RowsStay(s, t) && op !in t.ops
            && (o.branch, o.group) in t.apps
            && (var app := t.apps[(o.branch, o.group)];
                && app.listen == o.listen && (app.host.Some? <==> o.port.Some?)
                && (o.port.Some? ==> app.host.value.port == o.port.value && o.port.value !in t.laneReservations))
            && OtherAppsStay(s, t, o.branch, o.group) && OtherReservationsStay(s, t, o.port)
  {
    var o := s.ops[op];
    if o.port.Some? {
      assert Stepped(s, EndDeploy(op, Written)).laneReservations == s.laneReservations - {o.port.value};
    }
  }

  /** One that fails leaves the rows and the apps alone, and nothing reserved of a port its row did not have; a
      busy port sends a candidate deploy back to what is left to try. */
  lemma WhatAFailedDeployLeaves(s: State, op: OpId, end: End)
    requires CanHappen(s, EndDeploy(op, end)) && end != Written
    ensures var t, o := Stepped(s, EndDeploy(op, end)), s.ops[op];
            && RowsStay(s, t) && t.apps == s.apps
            && (o.port.Some? && !(o.prior.Some? && o.prior.value.port == o.port.value) ==> o.port.value !in t.laneReservations)
            && (if end == PortBusy && o.next != Once && o.next.left != []
                then op in t.ops && t.ops[op] == Choosing(o.next.project, o.next.name, o.group, o.listen, o.next.left)
                else op !in t.ops)
            && OtherReservationsStay(s, t, o.port)
  {
  }

  /** So a group that is deployed again without a port named keeps the one it has. */
  lemma ARedeployKeepsItsPort(s: State, op: OpId, b: BranchId, g: Group, listen: Port, r: Range, u: State)
    requires CanHappen(s, StartDeploy(op, b, g, listen, None, true, r)) && (b, g) in s.apps && s.apps[(b, g)].host.Some?
    requires CanHappen(u, EndDeploy(op, Written)) && op in Stepped(s, StartDeploy(op, b, g, listen, None, true, r)).ops
    requires u.ops[op] == Stepped(s, StartDeploy(op, b, g, listen, None, true, r)).ops[op]
    ensures var t := Stepped(u, EndDeploy(op, Written));
            (b, g) in t.apps && t.apps[(b, g)].host.Some? && t.apps[(b, g)].host.value.port == s.apps[(b, g)].host.value.port
  {
    WhatADeployIsGiven(s, op, b, g, listen, None, true, r);
    WhatADeployLeaves(u, op);
  }

  // ---- what is tried for a group that is deployed over -----------------------------------------

  /** Number `k` of the ports tried, from its listening port up, and no app is published on it or listens on
      it unpublished. */
  predicate IsCandidate(s: State, listen: Port, k: int) {
    0 < k < 50 && forall a :: a in s.apps ==> listen + 1000 * k != if s.apps[a].host.Some? then s.apps[a].host.value.port else s.apps[a].listen
  }

  lemma {:induction false} FirstCandidates(used: set<Port>, base: Port, k: nat, count: nat) returns (ks: seq<int>)
    ensures var out := Candidates(used, base, k, count);
            && |ks| == |out| && (forall i :: 0 <= i < |ks| ==> k <= ks[i] < 50 && out[i] == base + 1000 * ks[i] && out[i] !in used)
            && (forall i, j :: 0 <= i < j < |ks| ==> ks[i] < ks[j])
            && (forall n :: k <= n < 50 && base + 1000 * n !in used ==> n in ks || (|ks| == count && forall i :: 0 <= i < |ks| ==> ks[i] < n))
    decreases 50 - k
  {
    if count == 0 || k >= 50 {
      ks := [];
    } else if Nth(base, k) in used {
      ks := FirstCandidates(used, base, k + 1, count);
    } else {
      var rest := FirstCandidates(used, base, k + 1, count - 1);
      ks := [k] + rest;
      assert forall n :: n in ks <==> n == k || n in rest;
    }
  }

  /** The first five of them are tried, in order. */
  lemma WhatIsTried(s: State, op: OpId, project: ProjectId, name: string, g: Group, listen: Port) returns (ks: seq<int>)
    requires CanHappen(s, ListPorts(op, project, name, g, listen))
    ensures var t := Stepped(s, ListPorts(op, project, name, g, listen));
            && op in t.ops && t.ops[op].Choosing? && t.ops[op].group == g && t.ops[op].listen == listen
            && var left := t.ops[op].left;
               && |left| == |ks| <= 5 && (forall i :: 0 <= i < |ks| ==> IsCandidate(s, listen, ks[i]) && left[i] == listen + 1000 * ks[i])
               && (forall i, j :: 0 <= i < j < |ks| ==> ks[i] < ks[j])
               && forall k :: IsCandidate(s, listen, k) ==> k in ks || (|ks| == 5 && forall i :: 0 <= i < |ks| ==> ks[i] < k)
  {
    ks := FirstCandidates(UsedHostPorts(s), listen, 1, 5);
    forall k ensures IsCandidate(s, listen, k) <==> 0 < k < 50 && listen + 1000 * k !in UsedHostPorts(s) {
    }
  }

  /** Each in its turn is tried on the branch that has the name then, as if it had been named; nothing is
      reserved, and what is left is kept for the next turn. */
  lemma WhatATryIs(s: State, op: OpId, b: BranchId, local: bool)
    requires CanHappen(s, StartClone(op, b, local))
    ensures var t, o := Stepped(s, StartClone(op, b, local)), s.ops[op];
            && RowsStay(s, t) && t.apps == s.apps && t.laneReservations == s.laneReservations
            && op in t.ops && t.ops[op].Deploying? && t.ops[op].branch == b && t.ops[op].group == o.group && t.ops[op].listen == o.listen
            && t.ops[op].port == (if local then Some(o.left[0]) else None)
            && t.ops[op].next == Again(o.project, o.name, o.left[1..])
  {
  }

  // ---- lanes and names -------------------------------------------------------------------------

  /** The first read of a lane that is needed gives it the lowest free port and records it; every other read
      changes nothing. */
  lemma WhatALaneReadLeaves(s: State, b: BranchId, svc: Svc, local: bool, mysql: bool, r: Range)
    ensures var t := Stepped(s, ReadLane(b, svc, local, mysql, r));
            var needed := b in s.rows && (local || mysql) && !(b in s.lanes && svc in s.lanes[b]);
            if !needed || (forall q :: r.lo <= q <= r.hi ==> !IsFree(s, r, q)) then t == s
            else && b in t.lanes && svc in t.lanes[b] && IsLowestFree(s, r, t.lanes[b][svc])
                 && t.lanes == s.lanes[b := (if b in s.lanes then s.lanes[b] else map[])[svc := t.lanes[b][svc]]]
                 && t.rows == s.rows && t.apps == s.apps && t.ops == s.ops && t.laneReservations == s.laneReservations
  {
    NextIsLowest(s, r);
    var p := Next(r, TakenLanePorts(s));
    if p.Some? {
      NothingToGiveUp(s, b, svc, p.value);
    }
  }

  lemma NothingToGiveUp(s: State, b: BranchId, svc: Svc, p: Port)
    requires p !in s.laneReservations
    ensures LaneSet(s, b, svc, p, p) == s.(lanes := s.lanes[b := LanesOf(s, b)[svc := p]])
  {
    assert s.laneReservations - {p} == s.laneReservations;
  }

  /** A lane that must move gets the lowest free port, and a reservation of the one it leaves goes. */
  lemma WhatALaneMoveLeaves(s: State, b: BranchId, svc: Svc, busy: Port, r: Range)
    requires CanHappen(s, MoveLane(b, svc, busy, r))
    ensures var t := Stepped(s, MoveLane(b, svc, busy, r));
            if b !in s.rows || (forall q :: r.lo <= q <= r.hi ==> !IsFree(s, r, q)) then t == s
            else && b in t.lanes && svc in t.lanes[b] && IsLowestFree(s, r, t.lanes[b][svc])
                 && t.lanes == s.lanes[b := s.lanes[b][svc := t.lanes[b][svc]]]
                 && t.rows == s.rows && t.apps == s.apps && t.ops == s.ops
                 && busy !in t.laneReservations && OtherReservationsStay(s, t, Some(busy))
  {
    NextIsLowest(s, r);
  }

  /** A branch gets its new name unless it is the default one or another row of its project has it; nothing
      else of it changes, its ref least of all. */
  lemma WhatARenameLeaves(s: State, b: BranchId, name: string)
    requires CanHappen(s, RenameBranch(b, name))
    ensures var t := Stepped(s, RenameBranch(b, name));
            && (if s.rows[b].isDefault || (exists a :: a in s.rows && s.rows[a].project == s.rows[b].project && s.rows[a].name == name && name != s.rows[b].name)
                then t == s
                else t == s.(rows := t.rows) && t.rows == s.rows[b := s.rows[b].(name := name)])
  {
  }

  lemma CarriesIt(s: State, project: ProjectId, g: Group, b: BranchId)
    ensures b in Carriers(s, project, g) <==> b in s.rows && s.rows[b].project == project && (b, g) in s.apps
  {
  }

  lemma NobodyCarries(s: State, project: ProjectId, g: Group)
    ensures Carriers(s, project, g) != {} <==> exists a :: a in s.rows && s.rows[a].project == project && (a, g) in s.apps
  {
    if a :| a in Carriers(s, project, g) {
      CarriesIt(s, project, g, a);
    } else {
      forall a | a in s.rows && s.rows[a].project == project && (a, g) in s.apps ensures false {
        CarriesIt(s, project, g, a);
      }
    }
  }

  lemma WhatMoves(apps: map<(BranchId, Group), App>, who: set<BranchId>, was: Group, name: Group, b: BranchId, g: Group)
    requires was != name && forall a :: a in who ==> (a, was) in apps
    ensures var moved := Moved(apps, who, was, name);
            if b !in who || (g != was && g != name) then ((b, g) in moved <==> (b, g) in apps) && ((b, g) in apps ==> moved[(b, g)] == apps[(b, g)])
            else if g == name then (b, g) in moved && moved[(b, g)] == apps[(b, was)]
            else (b, g) !in moved
  {
  }

  /** A group gets its new name on every branch of the project that carries it, unless some branch carries
      that name; each keeps its port. */
  lemma WhatAGroupRenameLeaves(s: State, project: ProjectId, was: Group, name: Group, b: BranchId, g: Group)
    requires CanHappen(s, RenameGroup(project, was, name))
    ensures var t := Stepped(s, RenameGroup(project, was, name));
            var refused := was == name || exists a :: a in s.rows && s.rows[a].project == project && (a, name) in s.apps;
            var carries := b in s.rows && s.rows[b].project == project && (b, was) in s.apps;
            && t == s.(apps := t.apps)
            && (if refused || !carries || (g != was && g != name) then ((b, g) in t.apps <==> (b, g) in s.apps) && ((b, g) in s.apps ==> t.apps[(b, g)] == s.apps[(b, g)])
                else if g == name then (b, g) in t.apps && t.apps[(b, g)] == s.apps[(b, was)]
                else (b, g) !in t.apps)
  {
    NobodyCarries(s, project, name);
    CarriesIt(s, project, was, b);
    if was != name {
      WhatMoves(s.apps, Carriers(s, project, was), was, name, b, g);
    }
  }
}

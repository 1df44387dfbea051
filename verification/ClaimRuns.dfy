/** What the claims of src/engine.ts keep over every interleaving of creates, deploys, failures and
    deletes. */
module ClaimRuns {

  import opened Claims

  // ---- branch refs -----------------------------------------------------------------------------

  predicate CreateOk(s: State, op: OpId) {
    op in s.ops && s.ops[op].Creating? ==>
      var o := s.ops[op];
      && o.branch !in s.rows && (forall b :: b in s.rows ==> s.rows[b].ref != o.row.ref)
      && o.row.ref in s.branchReservations && s.branchReservations[o.row.ref] == o.branch
      && (o.wrote ==> o.branch in Under(s, o.row.ref))
  }

  /** Operation ids aside, two creates are of two branches. */
  predicate CreatesApart(s: State, op: OpId, oq: OpId) {
    op in s.ops && oq in s.ops && op != oq && s.ops[op].Creating? && s.ops[oq].Creating? ==> s.ops[op].branch != s.ops[oq].branch
  }

  /** A committed branch has its ref to itself. */
  predicate RowOk(s: State, b: BranchId) {
    b in s.rows ==> forall a :: a in s.rows && a != b ==> s.rows[a].ref != s.rows[b].ref
  }

  ghost predicate RefInv(s: State) {
    (forall op :: CreateOk(s, op)) && (forall op, oq :: CreatesApart(s, op, oq)) && (forall b :: RowOk(s, b))
  }

  // ---- ports -----------------------------------------------------------------------------------

  /** Everything that holds a port nobody named: a lane on a row, a published app's port, and the same two
      while their create or deploy is in flight. */
  datatype Claimant = Lane(branch: BranchId, svc: Svc) | Published(branch: BranchId, group: Group) | LaneToBe(op: OpId, svc: Svc) | PublishedToBe(op: OpId)

  function AutoPort(s: State, c: Claimant): Option<Port> {
    match c
    case Lane(b, svc) => if svc in LanesOf(s, b) then Some(LanesOf(s, b)[svc]) else None
    case Published(b, g) =>
      var h := PriorPort(s, b, g);
      if h.Some? && !h.value.origin.Given? then Some(h.value.port) else None
    case LaneToBe(op, svc) =>
      if op in s.ops && s.ops[op].Creating? && svc in s.ops[op].lanes then Some(s.ops[op].lanes[svc]) else None
    case PublishedToBe(op) => if op in s.ops && s.ops[op].Deploying? && !s.ops[op].origin.Given? then s.ops[op].port else None
  }

  /** Two claimants never hold the same port. */
  predicate Apart(s: State, c: Claimant, d: Claimant) {
    c != d && AutoPort(s, c).Some? ==> AutoPort(s, c) != AutoPort(s, d)
  }

  function Owner(s: State, c: Claimant): BranchId
    requires AutoPort(s, c).Some?
  {
    match c
    case Lane(b, _) => b
    case Published(b, _) => b
    case LaneToBe(op, _) => s.ops[op].branch
    case PublishedToBe(op) => s.ops[op].branch
  }

  predicate InFlight(c: Claimant) {
    c.LaneToBe? || c.PublishedToBe?
  }

  /** A candidate tried for a group that is deployed over is held without a reservation. */
  predicate Unreserved(s: State, c: Claimant) {
    c.PublishedToBe? && c.op in s.ops && s.ops[c.op].Deploying? && s.ops[c.op].origin.Cloned?
  }

  /** A port picked out of the range and not yet on a row is reserved for the branch it was picked for. */
  predicate IsReserved(s: State, c: Claimant) {
    InFlight(c) && !Unreserved(s, c) && AutoPort(s, c).Some? ==>
      AutoPort(s, c).value in s.laneReservations && s.laneReservations[AutoPort(s, c).value] == Owner(s, c)
  }

  /** A deploy in flight is of a branch with a row, remembers the port the row has, and is the only one of
      its group. */
  predicate DeployOk(s: State, op: OpId) {
    op in s.ops && s.ops[op].Deploying? ==>
      && s.ops[op].branch in s.rows && s.ops[op].prior == PriorPort(s, s.ops[op].branch, s.ops[op].group)
      && (!s.ops[op].origin.Given? ==> s.ops[op].port.Some?)
  }

  predicate DeploysApart(s: State, op: OpId, oq: OpId) {
    op in s.ops && oq in s.ops && op != oq && s.ops[op].Deploying? && s.ops[oq].Deploying? ==>
      (s.ops[op].branch, s.ops[op].group) != (s.ops[oq].branch, s.ops[oq].group)
  }

  ghost predicate DeployInv(s: State) {
    (forall op :: DeployOk(s, op)) && (forall op, oq :: DeploysApart(s, op, oq))
  }

  ghost predicate PortInv(s: State) {
    (forall c, d :: Apart(s, c, d)) && (forall c :: IsReserved(s, c))
  }

  // ---- runs ------------------------------------------------------------------------------------

  datatype Event =
    | Reserve(op: OpId, branch: BranchId, row: Row)
    | Abandon(op: OpId)
    | Allocate(op: OpId, ids: seq<Svc>, range: Range)
    | Write(op: OpId)
    | Commit(op: OpId)
    | Rollback(op: OpId, removed: bool)
    | AddData(branch: BranchId)
    | Drop(branch: BranchId, unwinding: bool)
    | RenameBranch(branch: BranchId, name: string)
    | RenameGroup(project: ProjectId, before: Group, after: Group)
    | StartDeploy(op: OpId, branch: BranchId, group: Group, listen: Port, named: Option<Port>, local: bool, range: Range)
    | ListPorts(op: OpId, project: ProjectId, name: string, group: Group, listen: Port)
    | StartClone(op: OpId, branch: BranchId, local: bool)
    | StopClone(op: OpId)
    | EndDeploy(op: OpId, end: End)
    | ReadLane(branch: BranchId, svc: Svc, local: bool, mysql: bool, range: Range)
    | MoveLane(branch: BranchId, svc: Svc, busy: Port, range: Range)

  predicate Distinct(ids: seq<Svc>) {
    forall i, j :: 0 <= i < j < |ids| ==> ids[i] != ids[j]
  }

  /** No deploy of the group is in flight. */
  predicate GroupIdle(s: State, branch: BranchId, group: Group) {
    forall o :: o in s.ops && s.ops[o].Deploying? && s.ops[o].branch == branch ==> s.ops[o].group != group
  }

  predicate BranchIdle(s: State, branch: BranchId) {
    forall o :: o in s.ops && !s.ops[o].Choosing? ==> s.ops[o].branch != branch
  }

  predicate HasName(s: State, branch: BranchId, project: ProjectId, name: string) {
    branch in s.rows && s.rows[branch].project == project && s.rows[branch].name == name
  }

  /** Branch ids are minted afresh and a ref is spelled from project and name. What the operation keys
      exclude does not happen: a delete, a rename of the group or a second deploy of it, beside an operation
      on the branch. The router moves the lane its row has. */
  predicate CanHappen(s: State, e: Event) {
    match e
    case Reserve(op, branch, row) =>
      && op !in s.ops && branch !in s.rows && BranchIdle(s, branch)
      && forall o :: o in s.ops && s.ops[o].Creating? && s.ops[o].row.project == row.project && s.ops[o].row.name == row.name ==> s.ops[o].row.ref == row.ref
    case Abandon(op) => op in s.ops && s.ops[op].Creating? && s.ops[op].lanes == map[] && !s.ops[op].wrote
    case Allocate(op, ids, _) => op in s.ops && s.ops[op].Creating? && s.ops[op].lanes == map[] && !s.ops[op].wrote && Distinct(ids)
    case Write(op) => op in s.ops && s.ops[op].Creating?
    case Commit(op) => op in s.ops && s.ops[op].Creating?
    case Rollback(op, _) => op in s.ops && s.ops[op].Creating?
    case AddData(branch) => branch in s.rows
    case Drop(branch, _) => branch in s.rows && BranchIdle(s, branch)
    case RenameBranch(branch, _) => branch in s.rows
    case RenameGroup(project, _, _) => forall b :: b in s.rows && s.rows[b].project == project ==> BranchIdle(s, b)
    case StartDeploy(op, branch, group, _, _, _, _) => op !in s.ops && branch in s.rows && GroupIdle(s, branch, group)
    case ListPorts(op, _, _, _, _) => op !in s.ops
    case StartClone(op, branch, _) =>
      && op in s.ops && s.ops[op].Choosing? && s.ops[op].left != []
      && HasName(s, branch, s.ops[op].project, s.ops[op].name) && GroupIdle(s, branch, s.ops[op].group)
    case StopClone(op) => op in s.ops && s.ops[op].Choosing?
    case EndDeploy(op, _) => op in s.ops && s.ops[op].Deploying?
    case ReadLane(_, _, _, _, _) => true
    case MoveLane(branch, svc, busy, _) => svc in LanesOf(s, branch) && LanesOf(s, branch)[svc] == busy
  }

  function Stepped(s: State, e: Event): State
    requires CanHappen(s, e)
  {
    match e
    case Reserve(op, branch, row) => Reserved(s, op, branch, row)
    case Abandon(op) => Abandoned(s, op)
    case Allocate(op, ids, range) => LanesAllocated(s, op, ids, range)
    case Write(op) => Wrote(s, op)
    case Commit(op) => Committed(s, op)
    case Rollback(op, removed) => RolledBack(s, op, removed)
    case AddData(branch) => DataAdded(s, branch)
    case Drop(branch, unwinding) => Dropped(s, branch, unwinding)
    case RenameBranch(branch, name) => BranchRenamed(s, branch, name)
    case RenameGroup(project, before, after) => GroupRenamed(s, project, before, after)
    case StartDeploy(op, branch, group, listen, named, local, range) => DeployStarted(s, op, branch, group, listen, named, local, range)
    case ListPorts(op, project, name, group, listen) => PortsListed(s, op, project, name, group, listen)
    case StartClone(op, branch, local) => CloneStarted(s, op, branch, local)
    case StopClone(op) => CloneGivenUp(s, op)
    case EndDeploy(op, end) => DeployEnded(s, op, end)
    case ReadLane(branch, svc, local, mysql, range) => LaneRead(s, branch, svc, local, mysql, range)
    case MoveLane(branch, svc, busy, range) => LaneMoved(s, branch, svc, busy, range)
  }

  function Empty(): State {
    State(map[], map[], map[], map[], map[], map[], map[])
  }

  ghost predicate IsRun(run: seq<Event>, at: seq<State>) {
    && |at| == |run| + 1 && at[0] == Empty()
    && forall i :: 0 <= i < |run| ==> CanHappen(at[i], run[i]) && at[i + 1] == Stepped(at[i], run[i])
  }

  // ---- refs stay exclusive ---------------------------------------------------------------------

  /** The step keeps refs exclusive, and roots owned. */
  ghost predicate KeepsRefs(s: State, t: State) {
    RefInv(t) && (RootsOwned(s) ==> RootsOwned(t))
  }

  predicate SameHolder(s: State, t: State, h: Holder) {
    && RefOf(t, h) == RefOf(s, h) && (RefOf(s, h).Some? ==> BranchOf(t, h) == BranchOf(s, h))
    && (h.CreateHolder? && RefOf(s, h).Some? ==> t.ops[h.op].wrote == s.ops[h.op].wrote)
  }

  lemma OwnerStays(s: State, t: State, h: Holder, ref: Ref)
    requires Owns(s, h, ref) && SameHolder(s, t, h) && Under(t, ref) == Under(s, ref)
    ensures Owns(t, h, ref)
  {
  }

  lemma SameOwners(s: State, t: State)
    requires t.roots == s.roots && forall h :: RefOf(s, h).Some? ==> SameHolder(s, t, h)
    ensures RootsOwned(s) ==> RootsOwned(t)
  {
    if RootsOwned(s) {
      forall ref ensures RootOk(t, ref) {
        assert RootOk(s, ref);
        if ref in s.roots {
          var h :| Owns(s, h, ref);
          OwnerStays(s, t, h, ref);
        }
      }
    }
  }

  /** What a step need not touch: rows, roots, refs and creates stay, or creates only change their lanes. */
  lemma OthersKeepRefs(s: State, t: State)
    requires RefInv(s) && t.rows == s.rows && t.roots == s.roots && t.branchReservations == s.branchReservations
    requires forall op :: op in t.ops && t.ops[op].Creating? ==>
               op in s.ops && s.ops[op].Creating? && s.ops[op].(lanes := map[]) == t.ops[op].(lanes := map[])
    requires forall op :: op in s.ops && s.ops[op].Creating? ==> op in t.ops && t.ops[op].Creating?
    ensures KeepsRefs(s, t)
  {
    forall h | RefOf(s, h).Some? ensures SameHolder(s, t, h) {
      if h.CreateHolder? {
        SameCreate(s, t, h.op);
      }
    }
    SameOwners(s, t);
    forall o ensures CreateOk(t, o) {
      assert CreateOk(s, o);
      SameCreate(s, t, o);
    }
    forall o, oq ensures CreatesApart(t, o, oq) {
      assert CreatesApart(s, o, oq);
      SameCreate(s, t, o);
      SameCreate(s, t, oq);
    }
    forall b ensures RowOk(t, b) {
      assert RowOk(s, b);
    }
  }

  lemma SameCreate(s: State, t: State, op: OpId)
    requires op in t.ops && t.ops[op].Creating? ==>
               op in s.ops && s.ops[op].Creating? && s.ops[op].(lanes := map[]) == t.ops[op].(lanes := map[])
    ensures op in t.ops && t.ops[op].Creating? ==> t.ops[op] == s.ops[op].(lanes := t.ops[op].lanes)
  {
  }

  lemma ReserveKeepsRefs(s: State, op: OpId, branch: BranchId, row: Row)
    requires RefInv(s) && CanHappen(s, Reserve(op, branch, row))
    ensures RefInv(Reserved(s, op, branch, row))
  {
    var t := Reserved(s, op, branch, row);
    forall o ensures CreateOk(t, o) {
      assert CreateOk(s, o);
    }
    forall o, oq ensures CreatesApart(t, o, oq) {
      assert CreatesApart(s, o, oq);
    }
    forall b ensures RowOk(t, b) {
      assert RowOk(s, b);
    }
  }

  lemma AbandonKeepsRefs(s: State, op: OpId)
    requires RefInv(s) && op in s.ops && s.ops[op].Creating? && !s.ops[op].wrote
    ensures KeepsRefs(s, Abandoned(s, op))
  {
    var t := Abandoned(s, op);
    assert CreateOk(s, op);
    CreateGone(s, t, op);
    if RootsOwned(s) {
      forall ref ensures RootOk(t, ref) {
        assert RootOk(s, ref);
        if ref in s.roots {
          var h :| Owns(s, h, ref);
          OwnerStays(s, t, h, ref);
        }
      }
    }
  }

  /** The create `op` is over, its ref released and its root gone; the others are as they were. */
  lemma CreateGone(s: State, t: State, op: OpId)
    requires RefInv(s) && op in s.ops && s.ops[op].Creating?
    requires t.rows == s.rows && t.ops == s.ops - {op}
    requires t.branchReservations == RefsWithout(s.branchReservations, s.ops[op].branch, s.ops[op].row.ref)
    requires forall ref :: ref != s.ops[op].row.ref ==> (ref in t.roots <==> ref in s.roots) && (ref in t.roots ==> t.roots[ref] == s.roots[ref])
    ensures forall o :: CreateOk(t, o)
    ensures forall o, oq :: CreatesApart(t, o, oq)
    ensures forall b :: RowOk(t, b)
  {
    assert CreateOk(s, op);
    forall o ensures CreateOk(t, o) {
      assert CreateOk(s, o) && CreatesApart(s, o, op);
    }
    forall o, oq ensures CreatesApart(t, o, oq) {
      assert CreatesApart(s, o, oq);
    }
    forall b ensures RowOk(t, b) {
      assert RowOk(s, b);
    }
  }

  lemma AllocateKeepsRefs(s: State, op: OpId, ids: seq<Svc>, r: Range)
    requires RefInv(s) && op in s.ops && s.ops[op].Creating? && !s.ops[op].wrote
    ensures KeepsRefs(s, LanesAllocated(s, op, ids, r))
  {
    var out := Allocated(r, TakenLanePorts(s), ids);
    if out.None? {
      AbandonKeepsRefs(s, op);
    } else {
      OthersKeepRefs(s, LanesClaimed(s, op, out.value));
    }
  }

  lemma WriteKeepsRefs(s: State, op: OpId)
    requires RefInv(s) && op in s.ops && s.ops[op].Creating?
    ensures RefInv(Wrote(s, op))
  {
    var t := Wrote(s, op);
    assert CreateOk(s, op);
    forall o ensures CreateOk(t, o) {
      assert CreateOk(s, o) && CreatesApart(s, o, op);
    }
    forall o, oq ensures CreatesApart(t, o, oq) {
      assert CreatesApart(s, o, oq);
    }
    forall b ensures RowOk(t, b) {
      assert RowOk(s, b);
    }
  }

  lemma CommitKeepsRefs(s: State, op: OpId)
    requires RefInv(s) && op in s.ops && s.ops[op].Creating?
    ensures RefInv(Committed(s, op))
  {
    var t := Committed(s, op);
    assert CreateOk(s, op);
    forall o ensures CreateOk(t, o) {
      assert CreateOk(s, o) && CreatesApart(s, o, op);
    }
    forall o, oq ensures CreatesApart(t, o, oq) {
      assert CreatesApart(s, o, oq);
    }
    forall b ensures RowOk(t, b) {
      assert RowOk(s, b);
    }
  }

  /** A rollback leaves the root of every committed branch exactly as it was, and takes that of its own ref
      unless the removal failed. */
  lemma RollbackKeepsRefs(s: State, op: OpId, removed: bool)
    requires RefInv(s) && op in s.ops && s.ops[op].Creating?
    ensures RefInv(RolledBack(s, op, removed))
    ensures var t := RolledBack(s, op, removed);
            forall b :: b in s.rows ==>
              var ref := s.rows[b].ref;
              (ref in t.roots <==> ref in s.roots) && (ref in t.roots ==> t.roots[ref] == s.roots[ref])
    ensures var ref := s.ops[op].row.ref;
            Under(RolledBack(s, op, removed), ref) == if removed then {} else Under(s, ref)
  {
    var t := RolledBack(s, op, removed);
    assert CreateOk(s, op);
    CreateGone(s, t, op);
  }

  lemma AddDataKeepsRefs(s: State, branch: BranchId)
    requires RefInv(s) && branch in s.rows
    ensures RefInv(DataAdded(s, branch))
  {
    var t := DataAdded(s, branch);
    forall o ensures CreateOk(t, o) {
      assert CreateOk(s, o);
    }
    forall o, oq ensures CreatesApart(t, o, oq) {
      assert CreatesApart(s, o, oq);
    }
    forall b ensures RowOk(t, b) {
      assert RowOk(s, b);
    }
  }

  lemma DropKeepsRefs(s: State, branch: BranchId, unwinding: bool)
    requires RefInv(s) && branch in s.rows && BranchIdle(s, branch)
    ensures RefInv(Dropped(s, branch, unwinding))
  {
    var t := Dropped(s, branch, unwinding);
    assert RowOk(s, branch);
    forall o ensures CreateOk(t, o) {
      assert CreateOk(s, o);
    }
    forall o, oq ensures CreatesApart(t, o, oq) {
      assert CreatesApart(s, o, oq);
    }
    forall b ensures RowOk(t, b) {
      assert RowOk(s, b);
    }
  }

  lemma RenameKeepsRefs(s: State, branch: BranchId, name: string)
    requires RefInv(s) && branch in s.rows
    ensures KeepsRefs(s, BranchRenamed(s, branch, name))
  {
    var t := BranchRenamed(s, branch, name);
    if t != s {
      assert t.rows == s.rows[branch := s.rows[branch].(name := name)];
      SameRefs(s, t);
    }
  }

  lemma SameRefs(s: State, t: State)
    requires RefInv(s) && t.rows.Keys == s.rows.Keys && forall b :: b in s.rows ==> t.rows[b].ref == s.rows[b].ref
    requires t.roots == s.roots && t.ops == s.ops && t.branchReservations == s.branchReservations
    ensures KeepsRefs(s, t)
  {
    forall h | RefOf(s, h).Some? ensures SameHolder(s, t, h) {}
    SameOwners(s, t);
    forall o ensures CreateOk(t, o) {
      assert CreateOk(s, o);
    }
    forall o, oq ensures CreatesApart(t, o, oq) {
      assert CreatesApart(s, o, oq);
    }
    forall b ensures RowOk(t, b) {
      assert RowOk(s, b);
    }
  }

  lemma OpenedKeepsRefs(s: State, op: OpId, o: Op)
    requires RefInv(s) && (op in s.ops ==> !s.ops[op].Creating?) && o.Deploying? && (o.origin.Ranged? ==> o.port.Some?)
    ensures KeepsRefs(s, Opened(s, op, o))
  {
    OthersKeepRefs(s, Opened(s, op, o));
  }

  lemma StartDeployKeepsRefs(s: State, op: OpId, branch: BranchId, group: Group, listen: Port, named: Option<Port>, local: bool, r: Range)
    requires RefInv(s) && op !in s.ops
    ensures KeepsRefs(s, DeployStarted(s, op, branch, group, listen, named, local, r))
  {
    var t := DeployStarted(s, op, branch, group, listen, named, local, r);
    if t != s {
      OpenedKeepsRefs(s, op, t.ops[op]);
    }
  }

  lemma RenameGroupKeepsRefs(s: State, project: ProjectId, before: Group, after: Group)
    requires RefInv(s)
    ensures KeepsRefs(s, GroupRenamed(s, project, before, after))
  {
    OthersKeepRefs(s, GroupRenamed(s, project, before, after));
  }

  lemma ListPortsKeepsRefs(s: State, op: OpId, project: ProjectId, name: string, group: Group, listen: Port)
    requires RefInv(s) && op !in s.ops
    ensures KeepsRefs(s, PortsListed(s, op, project, name, group, listen))
  {
    OthersKeepRefs(s, PortsListed(s, op, project, name, group, listen));
  }

  lemma StartCloneKeepsRefs(s: State, op: OpId, branch: BranchId, local: bool)
    requires RefInv(s) && op in s.ops && s.ops[op].Choosing? && s.ops[op].left != []
    ensures KeepsRefs(s, CloneStarted(s, op, branch, local))
  {
    OpenedKeepsRefs(s, op, CloneStarted(s, op, branch, local).ops[op]);
  }

  lemma StopCloneKeepsRefs(s: State, op: OpId)
    requires RefInv(s) && op in s.ops && s.ops[op].Choosing?
    ensures KeepsRefs(s, CloneGivenUp(s, op))
  {
    OthersKeepRefs(s, CloneGivenUp(s, op));
  }

  lemma WrittenKeepsRefs(s: State, op: OpId)
    requires RefInv(s) && op in s.ops && s.ops[op].Deploying?
    ensures KeepsRefs(s, DeployWritten(s, op))
  {
    OthersKeepRefs(s, DeployWritten(s, op));
  }

  lemma FailedKeepsRefs(s: State, op: OpId, busy: bool)
    requires RefInv(s) && op in s.ops && s.ops[op].Deploying?
    ensures KeepsRefs(s, DeployFailed(s, op, busy))
  {
    OthersKeepRefs(s, DeployFailed(s, op, busy));
  }

  lemma EndDeployKeepsRefs(s: State, op: OpId, end: End)
    requires RefInv(s) && op in s.ops && s.ops[op].Deploying?
    ensures KeepsRefs(s, DeployEnded(s, op, end))
  {
    if end.Written? {
      WrittenKeepsRefs(s, op);
    } else {
      FailedKeepsRefs(s, op, end.PortBusy?);
    }
  }

  lemma LaneReadKeepsRefs(s: State, branch: BranchId, svc: Svc, local: bool, mysql: bool, r: Range)
    requires RefInv(s)
    ensures KeepsRefs(s, LaneRead(s, branch, svc, local, mysql, r))
  {
    OthersKeepRefs(s, LaneRead(s, branch, svc, local, mysql, r));
  }

  lemma MoveLaneKeepsRefs(s: State, branch: BranchId, svc: Svc, busy: Port, r: Range)
    requires RefInv(s)
    ensures KeepsRefs(s, LaneMoved(s, branch, svc, busy, r))
  {
    OthersKeepRefs(s, LaneMoved(s, branch, svc, busy, r));
  }

  predicate IsCreateStep(e: Event) {
    e.Reserve? || e.Write? || e.Commit? || e.Rollback? || e.AddData? || e.Drop?
  }

  lemma OtherStepKeepsRefs(s: State, e: Event)
    requires RefInv(s) && CanHappen(s, e) && !IsCreateStep(e)
    ensures KeepsRefs(s, Stepped(s, e))
  {
    match e
    case Abandon(op) => AbandonKeepsRefs(s, op);
    case Allocate(op, ids, range) => AllocateKeepsRefs(s, op, ids, range);
    case RenameBranch(branch, name) => RenameKeepsRefs(s, branch, name);
    case StartDeploy(op, branch, group, listen, named, local, range) => StartDeployKeepsRefs(s, op, branch, group, listen, named, local, range);
    case RenameGroup(project, before, after) => RenameGroupKeepsRefs(s, project, before, after);
    case ListPorts(op, project, name, group, listen) => ListPortsKeepsRefs(s, op, project, name, group, listen);
    case StartClone(op, branch, local) => StartCloneKeepsRefs(s, op, branch, local);
    case StopClone(op) => StopCloneKeepsRefs(s, op);
    case EndDeploy(op, end) => EndDeployKeepsRefs(s, op, end);
    case ReadLane(branch, svc, local, mysql, range) => LaneReadKeepsRefs(s, branch, svc, local, mysql, range);
    case MoveLane(branch, svc, busy, range) => MoveLaneKeepsRefs(s, branch, svc, busy, range);
  }

  lemma CreateStepKeepsRefs(s: State, e: Event)
    requires RefInv(s) && CanHappen(s, e) && IsCreateStep(e)
    ensures RefInv(Stepped(s, e))
  {
    match e
    case Reserve(op, branch, row) => ReserveKeepsRefs(s, op, branch, row);
    case Write(op) => WriteKeepsRefs(s, op);
    case Commit(op) => CommitKeepsRefs(s, op);
    case Rollback(op, removed) => RollbackKeepsRefs(s, op, removed);
    case AddData(branch) => AddDataKeepsRefs(s, branch);
    case Drop(branch, unwinding) => DropKeepsRefs(s, branch, unwinding);
  }

  lemma StepKeepsRefs(s: State, e: Event)
    requires RefInv(s) && CanHappen(s, e)
    ensures RefInv(Stepped(s, e))
  {
    if IsCreateStep(e) {
      CreateStepKeepsRefs(s, e);
    } else {
      OtherStepKeepsRefs(s, e);
    }
  }

  lemma {:induction false} RefsAlwaysHold(run: seq<Event>, at: seq<State>, n: nat)
    requires IsRun(run, at) && n <= |run|
    ensures RefInv(at[n])
  {
    if n > 0 {
      RefsAlwaysHold(run, at, n - 1);
      StepKeepsRefs(at[n - 1], run[n - 1]);
    } else {
      forall op ensures CreateOk(at[0], op) {}
      forall op, oq ensures CreatesApart(at[0], op, oq) {}
      forall b ensures RowOk(at[0], b) {}
    }
  }

  /** A branch with a row, or a create in flight, with the ref it names its resources by. */
  datatype Holder = RowHolder(branch: BranchId) | CreateHolder(op: OpId)

  function RefOf(s: State, h: Holder): Option<Ref> {
    match h
    case RowHolder(b) => if b in s.rows then Some(s.rows[b].ref) else None
    case CreateHolder(op) => if op in s.ops && s.ops[op].Creating? then Some(s.ops[op].row.ref) else None
  }

  function BranchOf(s: State, h: Holder): BranchId
    requires RefOf(s, h).Some?
  {
    match h
    case RowHolder(b) => b
    case CreateHolder(op) => s.ops[op].branch
  }

  /** Over every interleaving, no two branch rows or creates in flight share a ref, whatever rolled back or
      was renamed beside them. */
  lemma RefsAreExclusive(run: seq<Event>, at: seq<State>, n: nat, g: Holder, h: Holder)
    requires IsRun(run, at) && n <= |run| && g != h
    ensures RefOf(at[n], g).Some? ==> RefOf(at[n], g) != RefOf(at[n], h)
  {
    RefsAlwaysHold(run, at, n);
    HoldersApart(at[n], g, h);
  }

  lemma HoldersApart(s: State, g: Holder, h: Holder)
    requires RefInv(s) && g != h
    ensures RefOf(s, g).Some? ==> RefOf(s, g) != RefOf(s, h)
  {
    if g.RowHolder? {
      assert RowOk(s, g.branch);
    } else {
      assert CreateOk(s, g.op);
    }
    if h.RowHolder? {
      assert RowOk(s, h.branch);
    } else {
      assert CreateOk(s, h.op);
    }
    if g.CreateHolder? && h.CreateHolder? {
      assert CreatesApart(s, g.op, h.op);
    }
  }

  // ---- who has what under its root -------------------------------------------------------------

  /** What a committed branch has under its root only ever gains bytes of its own, for as long as the branch
      stands. */
  lemma CommittedRootsAreSafe(run: seq<Event>, at: seq<State>, n: nat, b: BranchId)
    requires IsRun(run, at) && n < |run| && b in at[n].rows && b in at[n + 1].rows
    ensures at[n + 1].rows[b].ref == at[n].rows[b].ref
    ensures var ref := at[n].rows[b].ref;
            Under(at[n + 1], ref) == Under(at[n], ref) + if run[n] == AddData(b) then {b} else {}
  {
    RefsAlwaysHold(run, at, n);
    RowKeepsRoot(at[n], run[n], b);
  }

  lemma RowKeepsRoot(s: State, e: Event, b: BranchId)
    requires RefInv(s) && CanHappen(s, e) && b in s.rows && b in Stepped(s, e).rows
    ensures SameRow(s, Stepped(s, e), e, b)
  {
    if IsCreateStep(e) {
      RowKeepsRootBesideCreate(s, e, b);
    } else {
      SameRoots(s, e);
    }
  }

  predicate SameRow(s: State, t: State, e: Event, b: BranchId)
    requires b in s.rows && b in t.rows
  {
    && t.rows[b].ref == s.rows[b].ref
    && Under(t, s.rows[b].ref) == Under(s, s.rows[b].ref) + (if e == AddData(b) then {b} else {})
  }

  lemma RowKeepsRootBesideCreate(s: State, e: Event, b: BranchId)
    requires RefInv(s) && CanHappen(s, e) && IsCreateStep(e) && b in s.rows && b in Stepped(s, e).rows
    ensures SameRow(s, Stepped(s, e), e, b)
  {
    match e
    case Reserve(_, _, _) =>
    case Write(op) => CreateSparesRow(s, op, b);
    case Commit(op) => CreateSparesRow(s, op, b);
    case Rollback(op, removed) =>
      CreateSparesRow(s, op, b);
      RollbackKeepsRefs(s, op, removed);
    case _ => RowKeepsRootBesideRow(s, e, b);
  }

  lemma RowKeepsRootBesideRow(s: State, e: Event, b: BranchId)
    requires RefInv(s) && CanHappen(s, e) && (e.AddData? || e.Drop?) && b in s.rows && b in Stepped(s, e).rows
    ensures SameRow(s, Stepped(s, e), e, b)
  {
    RowSparesRow(s, e.branch, b);
  }

  lemma CreateSparesRow(s: State, op: OpId, b: BranchId)
    requires RefInv(s) && op in s.ops && s.ops[op].Creating? && b in s.rows
    ensures b != s.ops[op].branch && s.rows[b].ref != s.ops[op].row.ref
  {
    assert CreateOk(s, op);
  }

  lemma RowSparesRow(s: State, d: BranchId, b: BranchId)
    requires RefInv(s) && d in s.rows && b in s.rows
    ensures d != b ==> s.rows[b].ref != s.rows[d].ref
  {
    assert RowOk(s, d);
  }

  lemma SameRoots(s: State, e: Event)
    requires CanHappen(s, e) && !IsCreateStep(e)
    ensures Stepped(s, e).roots == s.roots && Stepped(s, e).rows.Keys == s.rows.Keys
    ensures forall b :: b in s.rows ==> Stepped(s, e).rows[b].ref == s.rows[b].ref
  {
    match e
    case EndDeploy(op, end) => DeployKeepsRoots(s, op, end);
    case StartDeploy(op, branch, group, listen, named, local, range) =>
      StartKeepsRoots(s, op, branch, group, listen, named, local, range);
    case Allocate(op, ids, range) => AllocateKeepsRoots(s, op, ids, range);
    case Abandon(op) =>
    case RenameBranch(branch, name) =>
    case _ => LaneKeepsRoots(s, e);
  }

  lemma LaneKeepsRoots(s: State, e: Event)
    requires CanHappen(s, e) && (e.ReadLane? || e.MoveLane? || e.RenameGroup? || e.ListPorts? || e.StartClone? || e.StopClone?)
    ensures Stepped(s, e).roots == s.roots && Stepped(s, e).rows == s.rows
  {
  }

  lemma AllocateKeepsRoots(s: State, op: OpId, ids: seq<Svc>, r: Range)
    requires op in s.ops && s.ops[op].Creating?
    ensures LanesAllocated(s, op, ids, r).roots == s.roots && LanesAllocated(s, op, ids, r).rows == s.rows
  {
  }

  lemma DeployKeepsRoots(s: State, op: OpId, end: End)
    requires op in s.ops && s.ops[op].Deploying?
    ensures DeployEnded(s, op, end).roots == s.roots && DeployEnded(s, op, end).rows == s.rows
  {
  }

  lemma StartKeepsRoots(s: State, op: OpId, branch: BranchId, group: Group, listen: Port, named: Option<Port>, local: bool, r: Range)
    ensures var t := DeployStarted(s, op, branch, group, listen, named, local, r); t.roots == s.roots && t.rows == s.rows
  {
  }

  /** A root that stands holds what the branch, or the create in flight, that has the ref put there and
      nothing else. */
  ghost predicate RootOk(s: State, ref: Ref) {
    ref in s.roots ==> exists h :: Owns(s, h, ref)
  }

  predicate Owns(s: State, h: Holder, ref: Ref) {
    RefOf(s, h) == Some(ref) && Under(s, ref) == {BranchOf(s, h)} && (h.CreateHolder? ==> s.ops[h.op].wrote)
  }

  ghost predicate RootsOwned(s: State) {
    forall ref :: RootOk(s, ref)
  }

  /** A rollback of a create that wrote, whose removal fails. */
  predicate LeavesRoot(s: State, e: Event) {
    e.Rollback? && !e.removed && e.op in s.ops && s.ops[e.op].Creating? && s.ops[e.op].wrote
  }

  /** Whoever owns a root in `s` goes on to in `t`, but for what concerns one ref. */
  ghost predicate OthersStay(s: State, t: State, mine: Ref) {
    forall ref :: ref != mine ==>
      (ref in t.roots <==> ref in s.roots) && Under(t, ref) == Under(s, ref)
      && forall h :: RefOf(s, h) == Some(ref) ==> SameHolder(s, t, h)
  }

  lemma OtherRootsOk(s: State, t: State, mine: Ref)
    requires RootsOwned(s) && OthersStay(s, t, mine)
    ensures forall ref :: ref != mine ==> RootOk(t, ref)
  {
    forall ref | ref != mine ensures RootOk(t, ref) {
      assert RootOk(s, ref);
      if ref in s.roots {
        var h :| Owns(s, h, ref);
        OwnerStays(s, t, h, ref);
      }
    }
  }

  /** A ref that somebody has is under nobody else's root. */
  lemma MyRoot(s: State, g: Holder)
    requires RefInv(s) && RootsOwned(s) && RefOf(s, g).Some?
    ensures RefOf(s, g).value in s.roots ==> Owns(s, g, RefOf(s, g).value)
  {
    var ref := RefOf(s, g).value;
    assert RootOk(s, ref);
    if ref in s.roots {
      var h :| Owns(s, h, ref);
      if h != g {
        HoldersApart(s, g, h);
      }
    }
  }

  lemma ReserveKeepsRoots(s: State, op: OpId, branch: BranchId, row: Row)
    requires RefInv(s) && RootsOwned(s) && op !in s.ops
    ensures RootsOwned(Reserved(s, op, branch, row))
  {
    var t := Reserved(s, op, branch, row);
    forall h | RefOf(s, h).Some? ensures SameHolder(s, t, h) {}
    SameOwners(s, t);
  }

  /** A create that gets its ref finds nothing under it, as long as roots are owned. */
  lemma FreshRefHasNoRoot(s: State, branch: BranchId, row: Row)
    requires RefInv(s) && RootsOwned(s) && !RefTaken(s, row, branch) && BranchIdle(s, branch)
    ensures row.ref !in s.roots
  {
    assert RootOk(s, row.ref);
    forall h ensures RefOf(s, h) != Some(row.ref) {
      if h.CreateHolder? {
        assert CreateOk(s, h.op);
      }
    }
  }

  lemma WriteKeepsRoots(s: State, op: OpId)
    requires RefInv(s) && RootsOwned(s) && op in s.ops && s.ops[op].Creating?
    ensures RootsOwned(Wrote(s, op))
  {
    var t, mine := Wrote(s, op), CreateHolder(op);
    var ref := s.ops[op].row.ref;
    MyRoot(s, mine);
    forall h | RefOf(s, h).Some? && RefOf(s, h) != Some(ref) ensures SameHolder(s, t, h) {}
    OtherRootsOk(s, t, ref);
    assert Owns(t, mine, ref);
  }

  lemma CommitKeepsRoots(s: State, op: OpId)
    requires RefInv(s) && RootsOwned(s) && op in s.ops && s.ops[op].Creating?
    ensures RootsOwned(Committed(s, op))
  {
    var t, o := Committed(s, op), s.ops[op];
    assert CreateOk(s, op);
    MyRoot(s, CreateHolder(op));
    forall h | RefOf(s, h).Some? && RefOf(s, h) != Some(o.row.ref) ensures SameHolder(s, t, h) {}
    OtherRootsOk(s, t, o.row.ref);
    assert o.row.ref in t.roots ==> Owns(t, RowHolder(o.branch), o.row.ref);
  }

  /** A rollback keeps roots owned exactly when it does not leave one behind. */
  lemma RollbackKeepsRoots(s: State, op: OpId, removed: bool)
    requires RefInv(s) && RootsOwned(s) && op in s.ops && s.ops[op].Creating?
    ensures RootsOwned(RolledBack(s, op, removed)) <==> !LeavesRoot(s, Rollback(op, removed))
  {
    var t, ref := RolledBack(s, op, removed), s.ops[op].row.ref;
    assert CreateOk(s, op);
    MyRoot(s, CreateHolder(op));
    forall h | RefOf(s, h).Some? && RefOf(s, h) != Some(ref) ensures SameHolder(s, t, h) {}
    OtherRootsOk(s, t, ref);
    if LeavesRoot(s, Rollback(op, removed)) {
      forall h ensures !Owns(t, h, ref) {
        if h != CreateHolder(op) {
          HoldersApart(s, CreateHolder(op), h);
        }
      }
      assert !RootOk(t, ref);
    }
  }

  lemma AddDataKeepsRoots(s: State, b: BranchId)
    requires RefInv(s) && RootsOwned(s) && b in s.rows
    ensures RootsOwned(DataAdded(s, b))
  {
    var t, ref := DataAdded(s, b), s.rows[b].ref;
    MyRoot(s, RowHolder(b));
    forall h | RefOf(s, h).Some? ensures SameHolder(s, t, h) {}
    OtherRootsOk(s, t, ref);
    assert Owns(t, RowHolder(b), ref);
  }

  lemma DropKeepsRoots(s: State, b: BranchId, unwinding: bool)
    requires RefInv(s) && RootsOwned(s) && b in s.rows
    ensures RootsOwned(Dropped(s, b, unwinding))
  {
    var t, ref := Dropped(s, b, unwinding), s.rows[b].ref;
    forall h | RefOf(s, h).Some? && RefOf(s, h) != Some(ref) ensures SameHolder(s, t, h) {}
    OtherRootsOk(s, t, ref);
  }

  lemma StepKeepsRoots(s: State, e: Event)
    requires RefInv(s) && RootsOwned(s) && CanHappen(s, e)
    ensures RootsOwned(Stepped(s, e)) <==> !LeavesRoot(s, e)
  {
    match e
    case Reserve(op, branch, row) => ReserveKeepsRoots(s, op, branch, row);
    case Write(op) => WriteKeepsRoots(s, op);
    case Commit(op) => CommitKeepsRoots(s, op);
    case Rollback(op, removed) => RollbackKeepsRoots(s, op, removed);
    case AddData(branch) => AddDataKeepsRoots(s, branch);
    case Drop(branch, unwinding) => DropKeepsRoots(s, branch, unwinding);
    case _ => OtherStepKeepsRefs(s, e);
  }

  lemma {:induction false} RootsAlwaysOwned(run: seq<Event>, at: seq<State>, n: nat)
    requires IsRun(run, at) && n <= |run| && forall i :: 0 <= i < n ==> !LeavesRoot(at[i], run[i])
    ensures RootsOwned(at[n])
  {
    if n > 0 {
      RootsAlwaysOwned(run, at, n - 1);
      RefsAlwaysHold(run, at, n - 1);
      StepKeepsRoots(at[n - 1], run[n - 1]);
    } else {
      forall ref ensures RootOk(at[0], ref) {}
    }
  }

  /** Every root that stands holds what the one that has its ref put there and nothing else, throughout a
      run, exactly when no rollback of a create that wrote fails to take its root away. */
  lemma {:induction false} RootsStayOwned(run: seq<Event>, at: seq<State>, n: nat)
    requires IsRun(run, at) && n <= |run|
    ensures (forall i :: 0 <= i <= n ==> RootsOwned(at[i])) <==> (forall i :: 0 <= i < n ==> !LeavesRoot(at[i], run[i]))
  {
    if forall i :: 0 <= i < n ==> !LeavesRoot(at[i], run[i]) {
      forall i | 0 <= i <= n ensures RootsOwned(at[i]) {
        RootsAlwaysOwned(run, at, i);
      }
    } else if exists i :: 0 <= i < n - 1 && LeavesRoot(at[i], run[i]) {
      RootsStayOwned(run, at, n - 1);
    } else {
      RootsAlwaysOwned(run, at, n - 1);
      RefsAlwaysHold(run, at, n - 1);
      StepKeepsRoots(at[n - 1], run[n - 1]);
      assert !RootsOwned(at[n]);
    }
  }

  // ---- what can really come about --------------------------------------------------------------

  /** The provision chain lets one create through at a time, from its reservation to its commit or rollback.
      Nothing above rests on that; the runs that show what can go wrong keep to it. */
  predicate OneCreate(s: State) {
    forall op, oq :: op in s.ops && oq in s.ops && s.ops[op].Creating? && s.ops[oq].Creating? ==> op == oq
  }

  /** Nor on this, that a group deployed over onto a branch is one that another branch of the project
      carries. */
  predicate IsCarried(s: State, e: Event) {
    e.ListPorts? ==>
      exists d :: d in Carriers(s, e.project, e.group) && s.apps[(d, e.group)].listen == e.listen && s.rows[d].name != e.name
  }

  ghost predicate IsServed(run: seq<Event>, at: seq<State>) {
    |at| == |run| + 1 && (forall i :: 0 <= i < |at| ==> OneCreate(at[i])) && forall i :: 0 <= i < |run| ==> IsCarried(at[i], run[i])
  }

  ghost predicate Reachable(s: State) {
    exists run, at :: IsRun(run, at) && IsServed(run, at) && at[|run|] == s
  }

  lemma FromTheStart()
    ensures Reachable(Empty())
  {
    var run: seq<Event>, at := [], [Empty()];
    assert IsRun(run, at) && IsServed(run, at);
  }

  lemma OneMore(run: seq<Event>, at: seq<State>, e: Event)
    requires IsRun(run, at) && CanHappen(at[|run|], e)
    ensures IsRun(run + [e], at + [Stepped(at[|run|], e)])
  {
    var run', at' := run + [e], at + [Stepped(at[|run|], e)];
    forall i | 0 <= i < |run'| ensures CanHappen(at'[i], run'[i]) && at'[i + 1] == Stepped(at'[i], run'[i]) {
      if i < |run| {
        assert run'[i] == run[i] && at'[i] == at[i] && at'[i + 1] == at[i + 1];
      }
    }
  }

  lemma OneMoreServed(run: seq<Event>, at: seq<State>, e: Event, t: State)
    requires IsServed(run, at) && IsCarried(at[|run|], e) && OneCreate(t)
    ensures IsServed(run + [e], at + [t])
  {
    var run', at' := run + [e], at + [t];
    forall i | 0 <= i < |at'| ensures OneCreate(at'[i]) {
      assert i < |at| ==> at'[i] == at[i];
    }
    forall i | 0 <= i < |run'| ensures IsCarried(at'[i], run'[i]) {
      assert i < |run| ==> at'[i] == at[i] && run'[i] == run[i];
    }
  }

  lemma Reach(s: State, e: Event)
    requires Reachable(s) && CanHappen(s, e) && IsCarried(s, e) && OneCreate(Stepped(s, e))
    ensures Reachable(Stepped(s, e))
  {
    var run, at :| IsRun(run, at) && IsServed(run, at) && at[|run|] == s;
    OneMore(run, at, e);
    OneMoreServed(run, at, e, Stepped(s, e));
    assert (at + [Stepped(s, e)])[|run + [e]|] == Stepped(s, e);
  }
}

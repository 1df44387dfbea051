/** Runs of src/engine.ts, from the empty state and with one create at a time, in which two ports the engine
    picked come to be the same, or a create finds what another left. */
module ClaimWitnesses {

  import opened Claims
  import opened ClaimRuns

  function WithBranch(s: State, b: BranchId, row: Row): State {
    s.(rows := s.rows[b := row], lanes := s.lanes[b := map[]])
  }

  /** Nothing in flight and nothing reserved. */
  predicate Quiet(s: State) {
    s.ops == map[] && s.branchReservations == map[] && s.laneReservations == map[]
  }

  // ---- one event more --------------------------------------------------------------------------

  lemma ThenReserve(s: State, op: OpId, b: BranchId, row: Row)
    requires Reachable(s) && CanHappen(s, Reserve(op, b, row)) && forall o :: o in s.ops ==> !s.ops[o].Creating?
    ensures Reachable(Reserved(s, op, b, row))
  {
    Reach(s, Reserve(op, b, row));
  }

  lemma NoMoreCreates(s: State, t: State)
    requires OneCreate(s) && forall o :: o in t.ops && t.ops[o].Creating? ==> o in s.ops && s.ops[o].Creating?
    ensures OneCreate(t)
  {
  }

  lemma ThenAllocate(s: State, op: OpId, ids: seq<Svc>, r: Range)
    requires Reachable(s) && OneCreate(s) && op in s.ops && s.ops[op].Creating? && s.ops[op].lanes == map[] && !s.ops[op].wrote && Distinct(ids)
    ensures Reachable(LanesAllocated(s, op, ids, r))
  {
    NoMoreCreates(s, LanesAllocated(s, op, ids, r));
    Reach(s, Allocate(op, ids, r));
  }

  lemma ThenCommit(s: State, op: OpId)
    requires Reachable(s) && OneCreate(s) && op in s.ops && s.ops[op].Creating?
    ensures Reachable(Committed(s, op))
  {
    Reach(s, Commit(op));
  }

  lemma ThenRename(s: State, b: BranchId, name: string)
    requires Reachable(s) && OneCreate(s) && b in s.rows
    ensures Reachable(BranchRenamed(s, b, name))
  {
    Reach(s, RenameBranch(b, name));
  }

  lemma ThenListPorts(s: State, op: OpId, project: ProjectId, name: string, g: Group, listen: Port, d: BranchId)
    requires Reachable(s) && OneCreate(s) && op !in s.ops
    requires d in Carriers(s, project, g) && s.apps[(d, g)].listen == listen && s.rows[d].name != name
    ensures Reachable(PortsListed(s, op, project, name, g, listen))
  {
    Reach(s, ListPorts(op, project, name, g, listen));
  }

  lemma ThenStartClone(s: State, op: OpId, b: BranchId, local: bool)
    requires Reachable(s) && OneCreate(s) && op in s.ops && s.ops[op].Choosing? && s.ops[op].left != []
    requires HasName(s, b, s.ops[op].project, s.ops[op].name) && GroupIdle(s, b, s.ops[op].group)
    ensures Reachable(CloneStarted(s, op, b, local))
  {
    Reach(s, StartClone(op, b, local));
  }

  lemma ThenWrite(s: State, op: OpId)
    requires Reachable(s) && OneCreate(s) && op in s.ops && s.ops[op].Creating?
    ensures Reachable(Wrote(s, op))
  {
    Reach(s, Write(op));
  }

  lemma ThenRollback(s: State, op: OpId, removed: bool)
    requires Reachable(s) && OneCreate(s) && op in s.ops && s.ops[op].Creating?
    ensures Reachable(RolledBack(s, op, removed))
  {
    Reach(s, Rollback(op, removed));
  }

  lemma ThenStartDeploy(s: State, op: OpId, b: BranchId, g: Group, listen: Port, named: Option<Port>, r: Range)
    requires Reachable(s) && OneCreate(s) && op !in s.ops && b in s.rows && GroupIdle(s, b, g)
    ensures Reachable(DeployStarted(s, op, b, g, listen, named, true, r))
  {
    Reach(s, StartDeploy(op, b, g, listen, named, true, r));
  }

  lemma ThenEnd(s: State, op: OpId, end: End)
    requires Reachable(s) && OneCreate(s) && op in s.ops && s.ops[op].Deploying?
    ensures Reachable(DeployEnded(s, op, end))
  {
    Reach(s, EndDeploy(op, end));
  }

  lemma ThenReadLane(s: State, b: BranchId, svc: Svc, r: Range)
    requires Reachable(s) && OneCreate(s)
    ensures Reachable(LaneRead(s, b, svc, true, false, r))
  {
    Reach(s, ReadLane(b, svc, true, false, r));
  }

  lemma MakeBranch(s: State, op: OpId, b: BranchId, row: Row)
    requires Reachable(s) && Quiet(s) && b !in s.rows && !RefTaken(s, row, b)
    ensures Reachable(WithBranch(s, b, row)) && Quiet(WithBranch(s, b, row))
  {
    ThenReserve(s, op, b, row);
    ThenCommit(Reserved(s, op, b, row), op);
    assert Committed(Reserved(s, op, b, row), op) == WithBranch(s, b, row);
  }

  // ---- the runs --------------------------------------------------------------------------------

  /** Branch `d` of the project carries the group, on a port its caller named, and `b` does not. */
  predicate HasGroup(s: State, d: BranchId, b: BranchId, g: Group, base: Port, port: Port) {
    && d in s.rows && b in s.rows && d != b && s.rows[d].project == s.rows[b].project && s.rows[d].name != s.rows[b].name
    && (d, g) in s.apps && s.apps[(d, g)] == App(base, Some(HostPort(port, Given))) && (b, g) !in s.apps
  }

  /** Two branches of one project, one of them with an app on a port its caller named. */
  lemma MakeProject(s: State, d: BranchId, b: BranchId, rowD: Row, rowB: Row, g: Group, base: Port, port: Port)
    requires Reachable(s) && Quiet(s) && d != b && d !in s.rows && b !in s.rows && PriorPort(s, d, g).None?
    requires !RefTaken(s, rowD, d) && !RefTaken(s, rowB, b) && rowD.ref != rowB.ref && rowD.name != rowB.name
    ensures var t := WithBranch(WithBranch(s, d, rowD), b, rowB).(apps := s.apps[(d, g) := App(base, Some(HostPort(port, Given)))]);
            Reachable(t) && Quiet(t)
  {
    MakeBranch(s, 0, d, rowD);
    var s1 := WithBranch(s, d, rowD);
    MakeBranch(s1, 0, b, rowB);
    NamedApp(WithBranch(s1, b, rowB), d, g, base, port);
  }

  /** A deploy on a port its caller named. */
  lemma NamedApp(s: State, d: BranchId, g: Group, base: Port, port: Port)
    requires Reachable(s) && Quiet(s) && d in s.rows && PriorPort(s, d, g).None?
    ensures Reachable(s.(apps := s.apps[(d, g) := App(base, Some(HostPort(port, Given)))]))
  {
    var r := Range(port, port, {});
    ThenStartDeploy(s, 0, d, g, base, Some(port), r);
    var t := DeployStarted(s, 0, d, g, base, Some(port), true, r);
    ThenEnd(t, 0, Written);
    assert t.ops - {0} == s.ops && t.laneReservations - {port} == s.laneReservations;
  }

  function Rest(used: set<Port>, base: Port): seq<Port> {
    Candidates(used, base, 1, CANDIDATES)
  }

  function Trying(used: set<Port>, b: BranchId, row: Row, g: Group, base: Port): Op
    requires Rest(used, base) != []
  {
    Deploying(b, g, base, Some(base + 1000), Cloned, None, Again(row.project, row.name, Rest(used, base)[1..]))
  }

  lemma FirstCandidate(used: set<Port>, base: Port)
    requires base + 1000 !in used
    ensures Rest(used, base) != [] && Rest(used, base)[0] == base + 1000
  {
  }

  /** With the first candidate no app's, the candidates are listed and it is tried, in one stretch. */
  lemma TryFirst(s: State, op: OpId, d: BranchId, b: BranchId, g: Group, base: Port, port: Port)
    requires Reachable(s) && OneCreate(s) && op !in s.ops && HasGroup(s, d, b, g, base, port) && GroupIdle(s, b, g)
    requires base + 1000 !in UsedHostPorts(s)
    ensures Rest(UsedHostPorts(s), base) != []
    ensures Reachable(s.(ops := s.ops[op := Trying(UsedHostPorts(s), b, s.rows[b], g, base)]))
  {
    FirstCandidate(UsedHostPorts(s), base);
    ThenListPorts(s, op, s.rows[b].project, s.rows[b].name, g, base, d);
    var t := PortsListed(s, op, s.rows[b].project, s.rows[b].name, g, base);
    ThenStartClone(t, op, b, true);
    assert CloneStarted(t, op, b, true).ops == s.ops[op := Trying(UsedHostPorts(s), b, s.rows[b], g, base)];
  }

  /** It works, and the row takes the port. */
  lemma WriteClone(s: State, op: OpId)
    requires Reachable(s) && OneCreate(s) && op in s.ops && s.ops[op].Deploying? && s.ops[op].origin.Cloned? && s.ops[op].port.Some?
    requires s.laneReservations == map[]
    ensures var o := s.ops[op];
            Reachable(s.(apps := s.apps[(o.branch, o.group) := App(o.listen, Some(HostPort(o.port.value, Cloned)))], ops := s.ops - {op}))
  {
    ThenEnd(s, op, Written);
    assert s.laneReservations - {s.ops[op].port.value} == map[];
  }

  /** Two branches of two projects get the same group deployed over at the same time. Each tries its first
      candidate before the other has a row, nothing is reserved, and both rows record the port. */
  lemma ClonesCoincide(a: Pair, c: Pair, g: Group, base: Port) returns (s: State)
    requires PairsOk(a, c) && a.port != base + 1000 && c.port != base + 1000
    ensures Reachable(s) && Quiet(s)
    ensures AutoPort(s, Published(a.to, g)) == Some(base + 1000) == AutoPort(s, Published(c.to, g))
  {
    TwoProjects(a, c, g, base);
    BothHaveIt(a, c, g, base);
    BothPorts(a, c, g, base);
    s := BothTried(SecondProject(OneProject(a, g, base), c, g, base), a, c, g, base);
  }

  /** Two branches of a project, and the port the first one's app was given. */
  datatype Pair = Pair(from: BranchId, to: BranchId, fromRow: Row, toRow: Row, port: Port)

  predicate PairOk(a: Pair) {
    && a.from != a.to && a.fromRow.project == a.toRow.project
    && a.fromRow.name != a.toRow.name && a.fromRow.ref != a.toRow.ref
  }

  predicate PairsOk(a: Pair, c: Pair) {
    && PairOk(a) && PairOk(c) && a.from != c.from && a.from != c.to && a.to != c.from && a.to != c.to
    && a.fromRow.ref != c.fromRow.ref && a.fromRow.ref != c.toRow.ref && a.toRow.ref != c.fromRow.ref && a.toRow.ref != c.toRow.ref
    && a.fromRow.project != c.fromRow.project
  }

  lemma TwoProjects(a: Pair, c: Pair, g: Group, base: Port)
    requires PairsOk(a, c)
    ensures var s := SecondProject(OneProject(a, g, base), c, g, base); Reachable(s) && Quiet(s)
  {
    FromTheStart();
    MakeProject(Empty(), a.from, a.to, a.fromRow, a.toRow, g, base, a.port);
    MakeProject(OneProject(a, g, base), c.from, c.to, c.fromRow, c.toRow, g, base, c.port);
  }

  function SecondProject(s: State, a: Pair, g: Group, base: Port): State {
    WithBranch(WithBranch(s, a.from, a.fromRow), a.to, a.toRow).(apps := s.apps[(a.from, g) := App(base, Some(HostPort(a.port, Given)))])
  }

  function OneProject(a: Pair, g: Group, base: Port): State {
    SecondProject(Empty(), a, g, base)
  }

  lemma BothHaveIt(a: Pair, c: Pair, g: Group, base: Port)
    requires PairsOk(a, c)
    ensures var s := SecondProject(OneProject(a, g, base), c, g, base);
            HasGroup(s, a.from, a.to, g, base, a.port) && HasGroup(s, c.from, c.to, g, base, c.port)
  {
  }

  lemma BothPorts(a: Pair, c: Pair, g: Group, base: Port)
    requires a.from != c.from
    ensures UsedHostPorts(SecondProject(OneProject(a, g, base), c, g, base)) == {a.port, c.port}
  {
    TwoApps(SecondProject(OneProject(a, g, base), c, g, base), a.from, c.from, g, base, a.port, c.port);
  }

  lemma TwoApps(s: State, d: BranchId, e: BranchId, g: Group, base: Port, p: Port, q: Port)
    requires d != e
    requires s.apps == map[(d, g) := App(base, Some(HostPort(p, Given))), (e, g) := App(base, Some(HostPort(q, Given)))]
    ensures UsedHostPorts(s) == {p, q}
  {
    assert (d, g) in s.apps && (e, g) in s.apps;
  }

  lemma BothTried(s2: State, a: Pair, c: Pair, g: Group, base: Port) returns (s: State)
    requires Reachable(s2) && Quiet(s2) && a.to != c.to && UsedHostPorts(s2) == {a.port, c.port} && a.port != base + 1000 && c.port != base + 1000
    requires HasGroup(s2, a.from, a.to, g, base, a.port) && HasGroup(s2, c.from, c.to, g, base, c.port)
    ensures Reachable(s) && Quiet(s)
    ensures AutoPort(s, Published(a.to, g)) == Some(base + 1000) == AutoPort(s, Published(c.to, g))
  {
    var used := UsedHostPorts(s2);
    TryFirst(s2, 1, a.from, a.to, g, base, a.port);
    var s3 := s2.(ops := map[1 := Trying(used, a.to, s2.rows[a.to], g, base)]);
    assert UsedHostPorts(s3) == used;
    TryFirst(s3, 2, c.from, c.to, g, base, c.port);
    s := BothWritten(s3.(ops := s3.ops[2 := Trying(used, c.to, s2.rows[c.to], g, base)]), a.to, c.to, g, base);
  }

  predicate Tries(o: Op, b: BranchId, g: Group, base: Port) {
    o.Deploying? && o.branch == b && o.group == g && o.listen == base && o.port == Some(base + 1000) && o.origin == Cloned
  }

  lemma BothWritten(s4: State, b: BranchId, c: BranchId, g: Group, base: Port) returns (s: State)
    requires b != c && Reachable(s4) && s4.ops.Keys == {1, 2} && Tries(s4.ops[1], b, g, base) && Tries(s4.ops[2], c, g, base)
    requires s4.branchReservations == map[] && s4.laneReservations == map[]
    ensures Reachable(s) && Quiet(s)
    ensures AutoPort(s, Published(b, g)) == Some(base + 1000) == AutoPort(s, Published(c, g))
  {
    var web := App(base, Some(HostPort(base + 1000, Cloned)));
    WriteClone(s4, 1);
    var s5 := s4.(apps := s4.apps[(b, g) := web], ops := s4.ops - {1});
    WriteClone(s5, 2);
    s := s5.(apps := s5.apps[(c, g) := web], ops := s5.ops - {2});
    assert s.ops == map[];
  }

  /** A lane read while a candidate is being tried is handed the very port. */
  lemma LaneMeetsCandidate(a: Pair, g: Group, base: Port, svc: Svc) returns (s: State)
    requires PairOk(a) && a.port != base + 1000
    ensures Reachable(s) && Quiet(s)
    ensures AutoPort(s, Published(a.to, g)) == Some(base + 1000) == AutoPort(s, Lane(a.to, svc))
  {
    FromTheStart();
    MakeProject(Empty(), a.from, a.to, a.fromRow, a.toRow, g, base, a.port);
    var s1 := WithBranch(WithBranch(Empty(), a.from, a.fromRow), a.to, a.toRow)
              .(apps := map[(a.from, g) := App(base, Some(HostPort(a.port, Given)))]);
    OneApp(s1, a.from, g, base, a.port);
    TryFirst(s1, 1, a.from, a.to, g, base, a.port);
    var s2 := s1.(ops := map[1 := Trying({a.port}, a.to, a.toRow, g, base)]);
    s := LaneReadMeanwhile(s2, a.to, g, base, svc);
  }

  lemma OneApp(s: State, d: BranchId, g: Group, base: Port, p: Port)
    requires s.apps == map[(d, g) := App(base, Some(HostPort(p, Given)))]
    ensures UsedHostPorts(s) == {p} && HostPorts(s) == {p}
  {
    assert (d, g) in s.apps;
  }

  lemma LaneReadMeanwhile(s2: State, b: BranchId, g: Group, base: Port, svc: Svc) returns (s: State)
    requires Reachable(s2) && s2.ops.Keys == {1} && Tries(s2.ops[1], b, g, base) && b in s2.rows && b in s2.lanes && s2.lanes[b] == map[]
    requires base + 1000 !in TakenLanePorts(s2) && s2.branchReservations == map[] && s2.laneReservations == map[]
    ensures Reachable(s) && Quiet(s)
    ensures AutoPort(s, Published(b, g)) == Some(base + 1000) == AutoPort(s, Lane(b, svc))
  {
    ReadLaneOf(s2, b, svc, base + 1000);
    var s3 := s2.(lanes := s2.lanes[b := map[svc := base + 1000]]);
    WriteClone(s3, 1);
    s := s3.(apps := s3.apps[(b, g) := App(base, Some(HostPort(base + 1000, Cloned)))], ops := s3.ops - {1});
    assert s.ops == map[];
  }

  lemma ReadLaneOf(s: State, b: BranchId, svc: Svc, p: Port)
    requires Reachable(s) && OneCreate(s) && b in s.rows && b in s.lanes && s.lanes[b] == map[] && p !in TakenLanePorts(s)
    ensures Reachable(s.(lanes := s.lanes[b := map[svc := p]]))
  {
    var r := Range(p, p, {});
    assert NextFrom(r, TakenLanePorts(s), p) == Some(p);
    ThenReadLane(s, b, svc, r);
    assert s.laneReservations - {p} == s.laneReservations;
  }

  /** A deploy that named `p`, whose row does not have it, fails: whatever reserves `p` is gone. */
  lemma Theft(s: State, op: OpId, b: BranchId, g: Group, listen: Port, p: Port)
    requires Reachable(s) && OneCreate(s) && op !in s.ops && b in s.rows && GroupIdle(s, b, g) && PriorPort(s, b, g).None?
    ensures Reachable(s.(laneReservations := s.laneReservations - {p}))
  {
    var r := Range(p, p, {});
    ThenStartDeploy(s, op, b, g, listen, Some(p), r);
    var t := DeployStarted(s, op, b, g, listen, Some(p), true, r);
    ThenEnd(t, op, Failed);
    assert t.ops - {op} == s.ops;
  }

  /** A deploy that asks for a port gets the one there is. */
  lemma Deploy(s: State, op: OpId, b: BranchId, g: Group, listen: Port, p: Port)
    requires Reachable(s) && OneCreate(s) && op !in s.ops && b in s.rows && GroupIdle(s, b, g) && PriorPort(s, b, g).None?
    requires p !in TakenLanePorts(s)
    ensures Reachable(s.(apps := s.apps[(b, g) := App(listen, Some(HostPort(p, Ranged)))]))
  {
    var t := s.(laneReservations := s.laneReservations[p := b], ops := s.ops[op := Deploying(b, g, listen, Some(p), Ranged, None, Once)]);
    PicksTheOne(s, op, b, g, listen, p);
    ThenStartDeploy(s, op, b, g, listen, None, Range(p, p, {}));
    ThenEnd(t, op, Written);
    WritesTheOne(s, t, op, b, g, listen, p);
  }

  lemma WritesTheOne(s: State, t: State, op: OpId, b: BranchId, g: Group, listen: Port, p: Port)
    requires op !in s.ops && p !in s.laneReservations
    requires t == s.(laneReservations := s.laneReservations[p := b], ops := s.ops[op := Deploying(b, g, listen, Some(p), Ranged, None, Once)])
    ensures DeployWritten(t, op) == s.(apps := s.apps[(b, g) := App(listen, Some(HostPort(p, Ranged)))])
  {
    assert t.ops - {op} == s.ops && t.laneReservations - {p} == s.laneReservations;
  }

  lemma PicksTheOne(s: State, op: OpId, b: BranchId, g: Group, listen: Port, p: Port)
    requires PriorPort(s, b, g).None? && p !in TakenLanePorts(s)
    ensures DeployStarted(s, op, b, g, listen, None, true, Range(p, p, {}))
         == s.(laneReservations := s.laneReservations[p := b], ops := s.ops[op := Deploying(b, g, listen, Some(p), Ranged, None, Once)])
  {
    assert NextFrom(Range(p, p, {}), TakenLanePorts(s), p) == Some(p);
  }

  lemma OneLane(r: Range, taken: set<Port>, svc: Svc)
    requires r.lo == r.hi && r.lo !in taken && r.busy == {}
    ensures Allocated(r, taken, [svc]) == Some(map[svc := r.lo])
  {
    assert [svc][..0] == [];
    var none: map<Svc, Port> := map[];
    assert Allocated(r, taken, []) == Some(none);
    assert taken + none.Values == taken;
    assert NextFrom(r, taken, r.lo) == Some(r.lo);
  }

  /** A create of one service reserves its lane. */
  lemma StartCreate(s: State, op: OpId, b: BranchId, row: Row, svc: Svc, p: Port)
    requires Reachable(s) && Quiet(s) && b !in s.rows && !RefTaken(s, row, b) && p !in TakenLanePorts(s)
    ensures Reachable(s.(ops := map[op := Creating(b, row, map[svc := p], false)],
                         branchReservations := map[row.ref := b], laneReservations := map[p := b]))
  {
    ThenReserve(s, op, b, row);
    var t := s.(ops := map[op := Creating(b, row, map[], false)], branchReservations := map[row.ref := b]);
    assert Reserved(s, op, b, row) == t;
    assert TakenLanePorts(t) == TakenLanePorts(s);
    AllocateOne(t, op, svc, p);
  }

  lemma AllocateOne(t: State, op: OpId, svc: Svc, p: Port)
    requires Reachable(t) && OneCreate(t) && op in t.ops && t.ops[op].Creating? && t.ops[op].lanes == map[] && !t.ops[op].wrote
    requires p !in TakenLanePorts(t)
    ensures Reachable(t.(laneReservations := t.laneReservations[p := t.ops[op].branch], ops := t.ops[op := t.ops[op].(lanes := map[svc := p])]))
  {
    var r := Range(p, p, {});
    OneLane(r, TakenLanePorts(t), svc);
    ThenAllocate(t, op, [svc], r);
    ClaimOne(t, op, svc, p);
  }

  lemma ClaimOne(t: State, op: OpId, svc: Svc, p: Port)
    requires op in t.ops && t.ops[op].Creating?
    ensures LanesClaimed(t, op, map[svc := p])
         == t.(laneReservations := t.laneReservations[p := t.ops[op].branch], ops := t.ops[op := t.ops[op].(lanes := map[svc := p])])
  {
    var lanes := map[svc := p];
    assert lanes[svc] in lanes.Values && lanes.Values == {p};
    var one := map q | q in lanes.Values :: t.ops[op].branch;
    assert one == map[p := t.ops[op].branch];
  }

  /** While a create counts on the lane `p`, a deploy that named `p` fails and gives it up; the next deploy
      that asks for a port is handed `p` again, and both rows come to record it. */
  lemma StolenPortIsHandedOutAgain(b: BranchId, x: BranchId, rowB: Row, rowX: Row, g: Group, h: Group, listen: Port, svc: Svc, p: Port)
    returns (s: State)
    requires b != x && rowB.ref != rowX.ref && rowB.name != rowX.name
    ensures Reachable(s) && Quiet(s)
    ensures AutoPort(s, Lane(x, svc)) == Some(p) == AutoPort(s, Published(b, h))
  {
    FromTheStart();
    MakeBranch(Empty(), 0, b, rowB);
    var s1 := WithBranch(Empty(), b, rowB);
    assert TakenLanePorts(s1) == {};
    StartCreate(s1, 1, x, rowX, svc, p);
    var s2 := s1.(ops := map[1 := Creating(x, rowX, map[svc := p], false)],
                  branchReservations := map[rowX.ref := x], laneReservations := map[p := x]);
    Theft(s2, 2, b, g, listen, p);
    assert s2.laneReservations - {p} == map[];
    s := AfterTheft(s2.(laneReservations := map[]), b, x, rowX, h, listen, svc, p);
  }

  lemma AfterTheft(s3: State, b: BranchId, x: BranchId, rowX: Row, h: Group, listen: Port, svc: Svc, p: Port) returns (s: State)
    requires b != x && Reachable(s3) && b in s3.rows && s3.lanes == map[b := map[]] && s3.apps == map[]
    requires s3.ops == map[1 := Creating(x, rowX, map[svc := p], false)]
    requires s3.branchReservations == map[rowX.ref := x] && s3.laneReservations == map[]
    ensures Reachable(s) && Quiet(s)
    ensures AutoPort(s, Lane(x, svc)) == Some(p) == AutoPort(s, Published(b, h))
  {
    assert TakenLanePorts(s3) == {};
    Deploy(s3, 3, b, h, listen, p);
    var s4 := s3.(apps := s3.apps[(b, h) := App(listen, Some(HostPort(p, Ranged)))]);
    CommitLast(s4, 1);
    s := s4.(rows := s4.rows[x := rowX], lanes := s4.lanes[x := map[svc := p]], ops := map[], branchReservations := map[]);
  }

  lemma CommitLast(s: State, op: OpId)
    requires Reachable(s) && s.ops.Keys == {op} && s.ops[op].Creating? && s.laneReservations == map[]
    requires s.branchReservations == map[s.ops[op].row.ref := s.ops[op].branch]
    ensures var o := s.ops[op];
            Reachable(s.(rows := s.rows[o.branch := o.row], lanes := s.lanes[o.branch := o.lanes], ops := map[], branchReservations := map[]))
  {
    ThenCommit(s, op);
    assert s.ops - {op} == map[] && LanesWithout(map[], s.ops[op].branch) == map[];
  }

  /** A create that wrote is rolled back and its root stays. */
  lemma RootIsLeft(x: BranchId, row: Row)
    ensures Reachable(Empty().(roots := map[row.ref := {x}]))
  {
    FromTheStart();
    ThenReserve(Empty(), 1, x, row);
    var s1 := Empty().(ops := map[1 := Creating(x, row, map[], false)], branchReservations := map[row.ref := x]);
    assert Reserved(Empty(), 1, x, row) == s1;
    ThenWrite(s1, 1);
    assert {} + {x} == {x};
    var s2 := s1.(ops := map[1 := Creating(x, row, map[], true)], roots := map[row.ref := {x}]);
    assert Wrote(s1, 1) == s2;
    ThenRollback(s2, 1, false);
    RolledBackAlone(s2, x, row);
  }

  lemma RolledBackAlone(s2: State, x: BranchId, row: Row)
    requires s2 == Empty().(ops := map[1 := Creating(x, row, map[], true)], branchReservations := map[row.ref := x], roots := map[row.ref := {x}])
    ensures RolledBack(s2, 1, false) == Empty().(roots := map[row.ref := {x}])
  {
    assert s2.ops - {1} == map[] && s2.branchReservations - {row.ref} == map[] && LanesWithout(map[], x) == map[];
  }

  /** Then the next create of that name gets the ref with those bytes under it, and commits a branch that has
      them beside its own. */
  lemma StaleRootIsFound(x: BranchId, y: BranchId, row: Row) returns (found: State, s: State)
    ensures Reachable(found) && found.ops == map[2 := Creating(y, row, map[], false)] && Under(found, row.ref) == {x} && found.rows == map[]
    ensures Reachable(s) && Quiet(s) && y in s.rows && s.rows[y].ref == row.ref && Under(s, row.ref) == {x, y}
  {
    RootIsLeft(x, row);
    var s2 := Empty().(roots := map[row.ref := {x}]);
    ThenReserve(s2, 2, y, row);
    found := s2.(ops := map[2 := Creating(y, row, map[], false)], branchReservations := map[row.ref := y]);
    assert Reserved(s2, 2, y, row) == found;
    ThenWrite(found, 2);
    var s3 := found.(ops := map[2 := Creating(y, row, map[], true)], roots := map[row.ref := {x} + {y}]);
    assert Wrote(found, 2) == s3;
    CommitLast(s3, 2);
    s := s3.(rows := s3.rows[y := row], lanes := s3.lanes[y := map[]], ops := map[], branchReservations := map[]);
  }
}

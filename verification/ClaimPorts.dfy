/** The one port space of src/engine.ts: the ports the engine picks stay apart, exactly as long as no deploy
    gives up a reservation that is not its own and no pick meets one that nothing reserves. */
module ClaimPorts {

  import opened Claims
  import opened ClaimRuns

  // ---- deploys keep their books ----------------------------------------------------------------

  lemma SameDeploys(s: State, t: State)
    requires DeployInv(s) && t.apps == s.apps && s.rows.Keys <= t.rows.Keys
    requires forall op :: op in t.ops && t.ops[op].Deploying? ==> op in s.ops && t.ops[op] == s.ops[op]
    ensures DeployInv(t)
  {
    forall op ensures DeployOk(t, op) {
      assert DeployOk(s, op);
    }
    forall op, oq ensures DeploysApart(t, op, oq) {
      assert DeploysApart(s, op, oq);
    }
  }

  lemma DropKeepsDeploys(s: State, branch: BranchId, unwinding: bool)
    requires DeployInv(s) && branch in s.rows && BranchIdle(s, branch)
    ensures DeployInv(Dropped(s, branch, unwinding))
  {
    var t := Dropped(s, branch, unwinding);
    forall op ensures DeployOk(t, op) {
      assert DeployOk(s, op);
    }
    forall op, oq ensures DeploysApart(t, op, oq) {
      assert DeploysApart(s, op, oq);
    }
  }

  predicate ProjectIdle(s: State, project: ProjectId) {
    forall b :: b in s.rows && s.rows[b].project == project ==> BranchIdle(s, b)
  }

  lemma RenameGroupKeepsDeploys(s: State, project: ProjectId, before: Group, after: Group)
    requires DeployInv(s) && ProjectIdle(s, project)
    ensures DeployInv(GroupRenamed(s, project, before, after))
  {
    var t := GroupRenamed(s, project, before, after);
    forall op ensures DeployOk(t, op) {
      assert DeployOk(s, op);
      if op in s.ops && s.ops[op].Deploying? {
        assert s.ops[op].branch !in Carriers(s, project, before);
      }
    }
    forall op, oq ensures DeploysApart(t, op, oq) {
      assert DeploysApart(s, op, oq);
    }
  }

  /** `o` may take the place of what `op` was. */
  predicate MayOpen(s: State, op: OpId, o: Op) {
    && o.Deploying? && (op in s.ops ==> s.ops[op].Choosing?)
    && o.branch in s.rows && GroupIdle(s, o.branch, o.group)
    && o.prior == PriorPort(s, o.branch, o.group) && (!o.origin.Given? ==> o.port.Some?)
  }

  lemma OpenedKeepsDeploys(s: State, op: OpId, o: Op)
    requires DeployInv(s) && MayOpen(s, op, o)
    ensures DeployInv(Opened(s, op, o))
  {
    var t := Opened(s, op, o);
    forall q ensures DeployOk(t, q) {
      assert DeployOk(s, q);
    }
    forall q, p ensures DeploysApart(t, q, p) {
      assert DeploysApart(s, q, p);
    }
  }

  lemma WrittenKeepsDeploys(s: State, op: OpId)
    requires DeployInv(s) && op in s.ops && s.ops[op].Deploying?
    ensures DeployInv(DeployWritten(s, op))
  {
    var t := DeployWritten(s, op);
    forall o ensures DeployOk(t, o) {
      assert DeployOk(s, o) && DeploysApart(s, o, op);
    }
    forall o, oq ensures DeploysApart(t, o, oq) {
      assert DeploysApart(s, o, oq);
    }
  }

  lemma FailedKeepsDeploys(s: State, op: OpId, busy: bool)
    requires DeployInv(s) && op in s.ops && s.ops[op].Deploying?
    ensures DeployInv(DeployFailed(s, op, busy))
  {
    SameDeploys(s, DeployFailed(s, op, busy));
  }

  // ---- what is picked is new -------------------------------------------------------------------

  lemma {:induction false} AllocatedIsNew(r: Range, taken: set<Port>, ids: seq<Svc>)
    requires Distinct(ids) && Allocated(r, taken, ids).Some?
    ensures var out := Allocated(r, taken, ids).value;
            && (forall svc :: svc in out <==> svc in ids)
            && (forall svc :: svc in out ==> out[svc] !in taken && r.lo <= out[svc] <= r.hi && out[svc] !in r.busy)
            && (forall a, b :: a in out && b in out && a != b ==> out[a] != out[b])
  {
    if ids != [] {
      var init, last := ids[..|ids| - 1], ids[|ids| - 1];
      AllocatedIsNew(r, taken, init);
      var out := Allocated(r, taken, init).value;
      var p := Next(r, taken + out.Values).value;
      assert ids == init + [last] && last !in init;
      var more := out[last := p];
      forall svc | svc in out ensures more[svc] == out[svc] && out[svc] in out.Values && more[svc] != p {
      }
    }
  }

  ghost predicate IsNth(base: Port, k: nat, c: Port) {
    exists j :: k <= j < 50 && Nth(base, j) == c
  }

  /** None of `out` is used, all are candidates from number `k` on and ascend, and one that is free is left out only
      behind `count` others. */
  ghost predicate FirstOnes(used: set<Port>, base: Port, k: nat, count: nat, out: seq<Port>) {
    && (forall i :: 0 <= i < |out| ==> out[i] !in used && IsNth(base, k, out[i]))
    && (forall i, j :: 0 <= i < j < |out| ==> out[i] < out[j])
    && (forall j :: k <= j < 50 && Nth(base, j) !in used && Nth(base, j) !in out ==> |out| == count && forall c :: c in out ==> c < Nth(base, j))
  }

  /** The candidates of `freeHostPorts`: ascending, no app's, and the first there are. */
  lemma {:induction false} CandidatesAreFree(used: set<Port>, base: Port, k: nat, count: nat)
    ensures FirstOnes(used, base, k, count, Candidates(used, base, k, count))
    decreases 50 - k
  {
    if count > 0 && k < 50 {
      if Nth(base, k) in used {
        CandidatesAreFree(used, base, k + 1, count);
        OneSkipped(used, base, k, count, Candidates(used, base, k + 1, count));
      } else {
        CandidatesAreFree(used, base, k + 1, count - 1);
        OneMoreCandidate(used, base, k, count, Candidates(used, base, k + 1, count - 1));
      }
    }
  }

  lemma OneSkipped(used: set<Port>, base: Port, k: nat, count: nat, rest: seq<Port>)
    requires k < 50 && Nth(base, k) in used && FirstOnes(used, base, k + 1, count, rest)
    ensures FirstOnes(used, base, k, count, rest)
  {
    forall i | 0 <= i < |rest| ensures IsNth(base, k, rest[i]) {
      LaterOne(base, k, rest[i]);
    }
  }

  lemma OneMoreCandidate(used: set<Port>, base: Port, k: nat, count: nat, rest: seq<Port>)
    requires count > 0 && k < 50 && Nth(base, k) !in used && FirstOnes(used, base, k + 1, count - 1, rest)
    ensures FirstOnes(used, base, k, count, [Nth(base, k)] + rest)
  {
    var out := [Nth(base, k)] + rest;
    forall i | 0 <= i < |out| ensures out[i] !in used && IsNth(base, k, out[i]) && (i > 0 ==> Nth(base, k) < out[i]) {
      if i == 0 {
        assert Nth(base, k) == out[0];
      } else {
        LaterOne(base, k, rest[i - 1]);
      }
    }
    forall j | k <= j < 50 && Nth(base, j) !in used && Nth(base, j) !in out ensures |out| == count && forall c :: c in out ==> c < Nth(base, j) {
      assert out[0] in out && j != k;
      assert Nth(base, j) !in rest;
    }
  }

  lemma LaterOne(base: Port, k: nat, c: Port)
    requires k < 50 && IsNth(base, k + 1, c)
    ensures IsNth(base, k, c) && Nth(base, k) < c
  {
    var j :| k + 1 <= j < 50 && Nth(base, j) == c;
  }

  /** Whatever a claimant holds is taken, but for a candidate that is being tried. */
  lemma HeldIsTaken(s: State, c: Claimant)
    requires IsReserved(s, c) && AutoPort(s, c).Some? && !Unreserved(s, c)
    ensures AutoPort(s, c).value in TakenLanePorts(s)
  {
    match c
    case Lane(b, svc) => assert b in s.lanes && svc in s.lanes[b] && s.lanes[b][svc] in LanePorts(s);
    case Published(b, g) =>
      var k := (b, g);
      assert k in s.apps && s.apps[k].host.Some? && s.apps[k].host.value.port in HostPorts(s);
    case LaneToBe(_, _) =>
    case PublishedToBe(_) =>
  }

  ghost predicate IsHeld(s: State, p: Port) {
    exists c :: AutoPort(s, c) == Some(p)
  }

  /** A port nobody held is apart from all that was. */
  lemma NewStaysApart(s: State, t: State, c: Claimant, d: Claimant)
    requires PortInv(s)
    requires AutoPort(t, c).Some? ==> AutoPort(t, c) == AutoPort(s, c) || !IsHeld(s, AutoPort(t, c).value)
    requires AutoPort(t, d).Some? ==> AutoPort(t, d) == AutoPort(s, d) || !IsHeld(s, AutoPort(t, d).value)
    requires c != d && AutoPort(t, c) != AutoPort(s, c) && AutoPort(t, d) != AutoPort(s, d) && AutoPort(t, c).Some? ==> AutoPort(t, c) != AutoPort(t, d)
    ensures Apart(t, c, d)
  {
    assert Apart(s, c, d);
    assert AutoPort(s, c).Some? ==> IsHeld(s, AutoPort(s, c).value);
    assert AutoPort(s, d).Some? ==> IsHeld(s, AutoPort(s, d).value);
  }

  // ---- every event but the end of a deploy -----------------------------------------------------

  lemma ClaimedPort(s: State, op: OpId, lanes: map<Svc, Port>, c: Claimant)
    requires op in s.ops && s.ops[op].Creating?
    ensures AutoPort(LanesClaimed(s, op, lanes), c)
         == if c.LaneToBe? && c.op == op then (if c.svc in lanes then Some(lanes[c.svc]) else None) else AutoPort(s, c)
  {
  }

  lemma ClaimedReservation(s: State, op: OpId, lanes: map<Svc, Port>, c: Claimant)
    requires op in s.ops && s.ops[op].Creating? && IsReserved(s, c)
    requires forall svc :: svc in lanes ==> lanes[svc] !in TakenLanePorts(s)
    ensures IsReserved(LanesClaimed(s, op, lanes), c)
  {
    ClaimedPort(s, op, lanes, c);
    if c.LaneToBe? && c.op == op && c.svc in lanes {
      assert lanes[c.svc] in lanes.Values;
    } else if InFlight(c) && !Unreserved(s, c) && AutoPort(s, c).Some? {
      assert AutoPort(s, c).value in TakenLanePorts(s);
    }
  }

  lemma ClaimKeepsPorts(s: State, op: OpId, lanes: map<Svc, Port>)
    requires PortInv(s) && op in s.ops && s.ops[op].Creating?
    requires forall svc :: svc in lanes ==> lanes[svc] !in TakenLanePorts(s) && !IsHeld(s, lanes[svc])
    requires forall a, b :: a in lanes && b in lanes && a != b ==> lanes[a] != lanes[b]
    ensures PortInv(LanesClaimed(s, op, lanes))
  {
    var t := LanesClaimed(s, op, lanes);
    forall c ensures IsReserved(t, c) {
      assert IsReserved(s, c);
      ClaimedReservation(s, op, lanes, c);
    }
    forall c, d ensures Apart(t, c, d) {
      ClaimedPort(s, op, lanes, c);
      ClaimedPort(s, op, lanes, d);
      NewStaysApart(s, t, c, d);
    }
  }

  /** A lane that another claimant holds. */
  lemma ClaimMeets(s: State, op: OpId, lanes: map<Svc, Port>, svc: Svc)
    requires op in s.ops && s.ops[op].Creating? && s.ops[op].lanes == map[] && svc in lanes && IsHeld(s, lanes[svc])
    ensures !PortInv(LanesClaimed(s, op, lanes))
  {
    var t := LanesClaimed(s, op, lanes);
    var c :| AutoPort(s, c) == Some(lanes[svc]);
    ClaimedPort(s, op, lanes, c);
    ClaimedPort(s, op, lanes, LaneToBe(op, svc));
    assert !Apart(t, LaneToBe(op, svc), c);
  }

  /** Nothing that concerns ports changed. */
  lemma SamePorts(s: State, t: State)
    requires PortInv(s) && t.laneReservations == s.laneReservations
    requires forall c :: AutoPort(t, c) == AutoPort(s, c) && (Unreserved(s, c) <==> Unreserved(t, c)) && (InFlight(c) && AutoPort(s, c).Some? ==> Owner(t, c) == Owner(s, c))
    ensures PortInv(t)
  {
    forall c ensures IsReserved(t, c) {
      assert IsReserved(s, c);
    }
    forall c, d ensures Apart(t, c, d) {
      assert Apart(s, c, d);
    }
  }

  lemma ReserveKeepsPorts(s: State, op: OpId, branch: BranchId, row: Row)
    requires PortInv(s) && op !in s.ops
    ensures PortInv(Reserved(s, op, branch, row))
  {
    var t := Reserved(s, op, branch, row);
    forall c ensures AutoPort(t, c) == AutoPort(s, c) {
      assert c.LaneToBe? && c.op == op && t != s ==> t.ops[op].lanes == map[];
    }
    SamePorts(s, t);
  }

  lemma AbandonKeepsPorts(s: State, op: OpId)
    requires PortInv(s) && op in s.ops && s.ops[op].Creating? && s.ops[op].lanes == map[]
    ensures PortInv(Abandoned(s, op))
  {
    SamePorts(s, Abandoned(s, op));
  }

  lemma AllocateKeepsPorts(s: State, op: OpId, ids: seq<Svc>, r: Range)
    requires PortInv(s) && op in s.ops && s.ops[op].Creating? && s.ops[op].lanes == map[] && Distinct(ids)
    ensures var out := Allocated(r, TakenLanePorts(s), ids);
            PortInv(LanesAllocated(s, op, ids, r)) <==> !(out.Some? && exists svc :: svc in out.value && IsHeld(s, out.value[svc]))
  {
    var out := Allocated(r, TakenLanePorts(s), ids);
    if out.None? {
      AbandonKeepsPorts(s, op);
    } else {
      AllocatedIsNew(r, TakenLanePorts(s), ids);
      if exists svc :: svc in out.value && IsHeld(s, out.value[svc]) {
        var svc :| svc in out.value && IsHeld(s, out.value[svc]);
        ClaimMeets(s, op, out.value, svc);
      } else {
        ClaimKeepsPorts(s, op, out.value);
      }
    }
  }

  lemma WriteKeepsPorts(s: State, op: OpId)
    requires PortInv(s) && op in s.ops && s.ops[op].Creating?
    ensures PortInv(Wrote(s, op))
  {
    SamePorts(s, Wrote(s, op));
  }

  /** The reservations of one branch go; no claim in flight is that branch's but those of `op`. */
  lemma ReleaseSpares(s: State, op: OpId, c: Claimant)
    requires RefInv(s) && DeployInv(s) && op in s.ops && s.ops[op].Creating?
    requires InFlight(c) && AutoPort(s, c).Some? && c.op != op
    ensures Owner(s, c) != s.ops[op].branch
  {
    assert CreateOk(s, op) && DeployOk(s, c.op) && CreatesApart(s, c.op, op);
  }

  lemma CommittedPort(s: State, op: OpId, c: Claimant)
    requires op in s.ops && s.ops[op].Creating?
    ensures var o := s.ops[op];
            AutoPort(Committed(s, op), c)
            == if c.Lane? && c.branch == o.branch then AutoPort(s, LaneToBe(op, c.svc))
               else if c.LaneToBe? && c.op == op then None
               else AutoPort(s, c)
  {
  }

  lemma CommittedReservation(s: State, op: OpId, c: Claimant)
    requires RefInv(s) && DeployInv(s) && op in s.ops && s.ops[op].Creating? && IsReserved(s, c)
    ensures IsReserved(Committed(s, op), c)
  {
    CommittedPort(s, op, c);
    if InFlight(c) && c.op != op && AutoPort(s, c).Some? {
      ReleaseSpares(s, op, c);
    }
  }

  lemma CommitKeepsPorts(s: State, op: OpId)
    requires RefInv(s) && DeployInv(s) && PortInv(s) && op in s.ops && s.ops[op].Creating?
    ensures PortInv(Committed(s, op))
  {
    var t := Committed(s, op);
    forall c ensures IsReserved(t, c) {
      CommittedReservation(s, op, c);
    }
    forall c, d ensures Apart(t, c, d) {
      CommitKeepsApart(s, op, c, d);
    }
  }

  lemma CommitKeepsApart(s: State, op: OpId, c: Claimant, d: Claimant)
    requires PortInv(s) && op in s.ops && s.ops[op].Creating?
    ensures Apart(Committed(s, op), c, d)
  {
    var o := s.ops[op];
    CommittedPort(s, op, c);
    CommittedPort(s, op, d);
    var c' := if c.Lane? && c.branch == o.branch then LaneToBe(op, c.svc) else c;
    var d' := if d.Lane? && d.branch == o.branch then LaneToBe(op, d.svc) else d;
    assert Apart(s, c', d');
  }

  lemma RolledBackPort(s: State, op: OpId, removed: bool, c: Claimant)
    requires op in s.ops && s.ops[op].Creating?
    ensures AutoPort(RolledBack(s, op, removed), c) == if c.LaneToBe? && c.op == op then None else AutoPort(s, c)
  {
  }

  lemma RollbackKeepsPorts(s: State, op: OpId, removed: bool)
    requires RefInv(s) && DeployInv(s) && PortInv(s) && op in s.ops && s.ops[op].Creating?
    ensures PortInv(RolledBack(s, op, removed))
  {
    var t := RolledBack(s, op, removed);
    forall c ensures IsReserved(t, c) {
      assert IsReserved(s, c);
      RolledBackPort(s, op, removed, c);
      if InFlight(c) && c.op != op && AutoPort(s, c).Some? {
        ReleaseSpares(s, op, c);
      }
    }
    forall c, d ensures Apart(t, c, d) {
      assert Apart(s, c, d);
      RolledBackPort(s, op, removed, c);
      RolledBackPort(s, op, removed, d);
    }
  }

  lemma DroppedPort(s: State, branch: BranchId, unwinding: bool, c: Claimant)
    requires branch in s.rows && BranchIdle(s, branch) && IsReserved(s, c)
    ensures var t := Dropped(s, branch, unwinding);
            AutoPort(t, c) == (if (c.Lane? || c.Published?) && c.branch == branch then None else AutoPort(s, c)) && IsReserved(t, c)
  {
    if InFlight(c) && AutoPort(s, c).Some? {
      assert Owner(s, c) != branch;
    }
  }

  lemma DropKeepsPorts(s: State, branch: BranchId, unwinding: bool)
    requires PortInv(s) && branch in s.rows && BranchIdle(s, branch)
    ensures PortInv(Dropped(s, branch, unwinding))
  {
    var t := Dropped(s, branch, unwinding);
    forall c ensures IsReserved(t, c) {
      assert IsReserved(s, c);
      DroppedPort(s, branch, unwinding, c);
    }
    forall c, d ensures Apart(t, c, d) {
      assert Apart(s, c, d) && IsReserved(s, c) && IsReserved(s, d);
      DroppedPort(s, branch, unwinding, c);
      DroppedPort(s, branch, unwinding, d);
    }
  }

  /** Whose port a claimant has after its group was renamed. */
  function WasPublished(s: State, project: ProjectId, before: Group, after: Group, c: Claimant): Claimant {
    if c.Published? && c.branch in Carriers(s, project, before) && c.group == after then Published(c.branch, before)
    else if c.Published? && c.branch in Carriers(s, project, before) && c.group == before then Published(c.branch, after)
    else c
  }

  lemma RenamedApp(s: State, project: ProjectId, before: Group, after: Group, b: BranchId, g: Group)
    requires before != after && b !in Carriers(s, project, after)
    ensures var moved := Moved(s.apps, Carriers(s, project, before), before, after);
            var g' := if b in Carriers(s, project, before) && g == after then before else g;
            && ((b, g) in moved <==> (b, g') in s.apps && !(b in Carriers(s, project, before) && g == before))
            && ((b, g) in moved ==> moved[(b, g)] == s.apps[(b, g')])
  {
  }

  lemma RenamedPort(s: State, project: ProjectId, before: Group, after: Group, c: Claimant)
    requires before != after && Carriers(s, project, after) == {}
    ensures AutoPort(GroupRenamed(s, project, before, after), c) == AutoPort(s, WasPublished(s, project, before, after, c))
  {
    if c.Published? {
      assert c.branch !in Carriers(s, project, after);
      RenamedApp(s, project, before, after, c.branch, c.group);
    }
  }

  lemma RenameGroupKeepsPorts(s: State, project: ProjectId, before: Group, after: Group)
    requires PortInv(s)
    ensures PortInv(GroupRenamed(s, project, before, after))
  {
    var t := GroupRenamed(s, project, before, after);
    if before != after && Carriers(s, project, after) == {} {
      forall c ensures IsReserved(t, c) {
        assert IsReserved(s, c);
        RenamedPort(s, project, before, after, c);
      }
      forall c, d ensures Apart(t, c, d) {
        RenamedPort(s, project, before, after, c);
        RenamedPort(s, project, before, after, d);
        assert Apart(s, WasPublished(s, project, before, after, c), WasPublished(s, project, before, after, d));
      }
    }
  }

  // ---- a deploy gets its port ------------------------------------------------------------------

  lemma OpenedPort(s: State, op: OpId, o: Op, c: Claimant)
    requires MayOpen(s, op, o)
    ensures AutoPort(Opened(s, op, o), c)
         == if c == PublishedToBe(op) then (if o.origin.Given? then None else o.port) else AutoPort(s, c)
  {
  }

  lemma OpenedReservation(s: State, op: OpId, o: Op, c: Claimant)
    requires MayOpen(s, op, o) && IsReserved(s, c) && (o.origin.Ranged? ==> o.port.value !in TakenLanePorts(s))
    ensures IsReserved(Opened(s, op, o), c)
  {
    OpenedPort(s, op, o, c);
    if c != PublishedToBe(op) && AutoPort(s, c).Some? && !Unreserved(s, c) {
      HeldIsTaken(s, c);
    }
  }

  /** A deploy keeps the ports apart exactly when the port it picks, if it picks one, is nobody's. */
  lemma OpenedKeepsPorts(s: State, op: OpId, o: Op)
    requires PortInv(s) && MayOpen(s, op, o) && (o.origin.Ranged? ==> o.port.value !in TakenLanePorts(s))
    ensures PortInv(Opened(s, op, o)) <==> !(!o.origin.Given? && IsHeld(s, o.port.value))
  {
    var t := Opened(s, op, o);
    if !o.origin.Given? && IsHeld(s, o.port.value) {
      var c :| AutoPort(s, c) == Some(o.port.value);
      OpenedPort(s, op, o, c);
      OpenedPort(s, op, o, PublishedToBe(op));
      assert !Apart(t, PublishedToBe(op), c);
    } else {
      forall c ensures IsReserved(t, c) {
        assert IsReserved(s, c);
        OpenedReservation(s, op, o, c);
      }
      forall c, d ensures Apart(t, c, d) {
        OpenedPort(s, op, o, c);
        OpenedPort(s, op, o, d);
        NewStaysApart(s, t, c, d);
      }
    }
  }

  lemma LaneSetPort(s: State, branch: BranchId, svc: Svc, port: Port, gone: Port, c: Claimant)
    ensures AutoPort(LaneSet(s, branch, svc, port, gone), c) == if c == Lane(branch, svc) then Some(port) else AutoPort(s, c)
  {
  }

  /** What is reserved of the port a lane had, or gets, nobody counts on. */
  lemma LaneSetReservation(s: State, branch: BranchId, svc: Svc, port: Port, gone: Port, c: Claimant)
    requires PortInv(s) && IsReserved(s, c) && !IsHeld(s, port) && (gone == port || AutoPort(s, Lane(branch, svc)) == Some(gone))
    ensures IsReserved(LaneSet(s, branch, svc, port, gone), c)
  {
    LaneSetPort(s, branch, svc, port, gone, c);
    if InFlight(c) && AutoPort(s, c).Some? {
      assert IsHeld(s, AutoPort(s, c).value) && Apart(s, c, Lane(branch, svc));
    }
  }

  /** A new port for a lane keeps the ports apart exactly when it is nobody's. */
  lemma LaneSetKeepsPorts(s: State, branch: BranchId, svc: Svc, port: Port, gone: Port)
    requires PortInv(s) && port !in TakenLanePorts(s) && (gone == port || AutoPort(s, Lane(branch, svc)) == Some(gone))
    ensures PortInv(LaneSet(s, branch, svc, port, gone)) <==> !IsHeld(s, port)
  {
    var t, mine := LaneSet(s, branch, svc, port, gone), Lane(branch, svc);
    LaneSetPort(s, branch, svc, port, gone, mine);
    if IsHeld(s, port) {
      var c :| AutoPort(s, c) == Some(port);
      assert IsReserved(s, mine);
      if c == mine {
        HeldIsTaken(s, mine);
      }
      LaneSetPort(s, branch, svc, port, gone, c);
      assert !Apart(t, mine, c);
    } else {
      forall c ensures IsReserved(t, c) {
        assert IsReserved(s, c);
        LaneSetReservation(s, branch, svc, port, gone, c);
      }
      forall c, d ensures Apart(t, c, d) {
        LaneSetPort(s, branch, svc, port, gone, c);
        LaneSetPort(s, branch, svc, port, gone, d);
        NewStaysApart(s, t, c, d);
      }
    }
  }

  // ---- the end of a deploy ---------------------------------------------------------------------

  /** The end of this deploy gives up the reservation of its port. */
  predicate GivesUp(s: State, op: OpId, end: End, p: Port)
    requires op in s.ops && s.ops[op].Deploying?
  {
    var o := s.ops[op];
    o.port == Some(p) && (end.Written? || o.prior.None? || o.prior.value.port != p)
  }

  predicate HeldByAnother(s: State, op: OpId, c: Claimant, p: Port) {
    InFlight(c) && !Unreserved(s, c) && c.op != op && AutoPort(s, c) == Some(p)
  }

  /** It gives up one that another create or deploy in flight is counting on. */
  ghost predicate Steals(s: State, op: OpId, end: End)
    requires op in s.ops && s.ops[op].Deploying?
  {
    exists c, p :: HeldByAnother(s, op, c, p) && GivesUp(s, op, end, p)
  }

  lemma EndedPort(s: State, op: OpId, end: End, c: Claimant)
    requires op in s.ops && s.ops[op].Deploying? && DeployOk(s, op)
    ensures var o := s.ops[op];
            var k := Published(o.branch, o.group);
            AutoPort(DeployEnded(s, op, end), c)
            == if c == PublishedToBe(op) then None
               else if end.Written? && c == k
               then (if !o.origin.Given? then AutoPort(s, PublishedToBe(op)) else if AutoPort(s, k) == o.port then o.port else None)
               else AutoPort(s, c)
  {
    if end.Written? {
      WrittenPort(s, op, c);
    }
  }

  lemma WrittenPort(s: State, op: OpId, c: Claimant)
    requires op in s.ops && s.ops[op].Deploying? && DeployOk(s, op)
    ensures var o := s.ops[op];
            var k := Published(o.branch, o.group);
            AutoPort(DeployWritten(s, op), c)
            == if c == PublishedToBe(op) then None
               else if c == k then (if !o.origin.Given? then o.port else if AutoPort(s, k) == o.port then o.port else None)
               else AutoPort(s, c)
  {
  }

  lemma EndKeepsApart(s: State, op: OpId, end: End, c: Claimant, d: Claimant)
    requires op in s.ops && s.ops[op].Deploying? && DeployOk(s, op) && PortInv(s)
    ensures Apart(DeployEnded(s, op, end), c, d)
  {
    EndedPort(s, op, end, c);
    EndedPort(s, op, end, d);
    var k := Published(s.ops[op].branch, s.ops[op].group);
    assert Apart(s, c, d) && Apart(s, PublishedToBe(op), d) && Apart(s, c, PublishedToBe(op)) && Apart(s, d, c);
  }

  lemma EndedReservation(s: State, op: OpId, end: End, c: Claimant)
    requires op in s.ops && s.ops[op].Deploying? && DeployOk(s, op) && IsReserved(s, c)
    ensures InFlight(c) && !Unreserved(s, c) && c.op != op && AutoPort(s, c).Some? ==>
              (IsReserved(DeployEnded(s, op, end), c) <==> !GivesUp(s, op, end, AutoPort(s, c).value))
  {
    EndedPort(s, op, end, c);
  }

  lemma EndSparesOthers(s: State, op: OpId, end: End, c: Claimant)
    requires op in s.ops && s.ops[op].Deploying? && DeployOk(s, op) && IsReserved(s, c) && !Steals(s, op, end)
    ensures IsReserved(DeployEnded(s, op, end), c)
  {
    EndedPort(s, op, end, c);
    EndedReservation(s, op, end, c);
    if InFlight(c) && !Unreserved(s, c) && c.op != op && AutoPort(s, c).Some? {
      assert HeldByAnother(s, op, c, AutoPort(s, c).value);
    }
  }

  /** The end of a deploy keeps automatic ports apart and reserved exactly when it does not give up a
      reservation that is another's. */
  lemma EndKeepsPorts(s: State, op: OpId, end: End)
    requires op in s.ops && s.ops[op].Deploying? && DeployInv(s) && PortInv(s)
    ensures PortInv(DeployEnded(s, op, end)) <==> !Steals(s, op, end)
  {
    assert DeployOk(s, op);
    var t := DeployEnded(s, op, end);
    forall c, d ensures Apart(t, c, d) {
      EndKeepsApart(s, op, end, c, d);
    }
    if Steals(s, op, end) {
      var c, p :| HeldByAnother(s, op, c, p) && GivesUp(s, op, end, p);
      assert IsReserved(s, c);
      EndedReservation(s, op, end, c);
      assert !IsReserved(t, c);
    } else {
      forall c ensures IsReserved(t, c) {
        assert IsReserved(s, c);
        EndSparesOthers(s, op, end, c);
      }
    }
  }

  /** Only a port the caller named is ever given up so: one the engine picked, and one the row already has
      from such a pick, is nobody else's while the claims hold. */
  lemma OnlyNamedPortsSteal(s: State, op: OpId, end: End)
    requires op in s.ops && s.ops[op].Deploying? && DeployInv(s) && PortInv(s) && Steals(s, op, end)
    ensures var o := s.ops[op];
            o.origin.Given? && o.port.Some? && AutoPort(s, Published(o.branch, o.group)) != o.port
  {
    var c, p :| HeldByAnother(s, op, c, p) && GivesUp(s, op, end, p);
    var mine, row := PublishedToBe(op), Published(s.ops[op].branch, s.ops[op].group);
    assert s.ops[op].port == AutoPort(s, c) && mine != c && row != c;
    assert Apart(s, mine, c) && Apart(s, row, c);
  }

  // ---- one step --------------------------------------------------------------------------------

  ghost predicate StealsAt(s: State, e: Event) {
    e.EndDeploy? && e.op in s.ops && s.ops[e.op].Deploying? && Steals(s, e.op, e.end)
  }

  /** The ports this step picks for somebody. */
  function Picked(s: State, e: Event): set<Port>
    requires CanHappen(s, e)
  {
    match e
    case Allocate(op, ids, range) =>
      var out := Allocated(range, TakenLanePorts(s), ids);
      if out.Some? then out.value.Values else {}
    case StartDeploy(_, branch, group, _, named, local, range) =>
      if local && named.None? && PriorPort(s, branch, group).None? then Only(Next(range, TakenLanePorts(s))) else {}
    case StartClone(op, branch, local) => NewPort(CloneStarted(s, op, branch, local).ops[op])
    case ReadLane(branch, svc, local, mysql, range) =>
      if svc in LanesOf(s, branch) || !LaneNeeded(s, branch, local, mysql) then {} else Only(Next(range, TakenLanePorts(s)))
    case MoveLane(branch, _, _, range) => if branch in s.rows then Only(Next(range, TakenLanePorts(s))) else {}
    case _ => {}
  }

  function Only(p: Option<Port>): set<Port> {
    if p.Some? then {p.value} else {}
  }

  function NewPort(o: Op): set<Port> {
    if o.Deploying? && !o.origin.Given? then Only(o.port) else {}
  }

  /** It picks a port that somebody already has. */
  ghost predicate Meets(s: State, e: Event)
    requires CanHappen(s, e)
  {
    exists p :: p in Picked(s, e) && IsHeld(s, p)
  }

  ghost predicate Clashes(s: State, e: Event)
    requires CanHappen(s, e)
  {
    StealsAt(s, e) || Meets(s, e)
  }

  lemma PickedIsFree(s: State, e: Event, p: Port)
    requires CanHappen(s, e) && !e.StartClone? && p in Picked(s, e)
    ensures p !in TakenLanePorts(s)
  {
    match e
    case Allocate(_, ids, range) => AllocatedIsNew(range, TakenLanePorts(s), ids);
    case StartDeploy(_, _, _, _, _, _, _) =>
    case ReadLane(_, _, _, _, _) =>
    case MoveLane(_, _, _, _) =>
  }

  /** Two picks can only meet over the candidate of a group that is deployed over: it is tried without a
      reservation, and listed without a look at lanes and reservations. */
  lemma OnlyCandidatesMeet(s: State, e: Event, p: Port, c: Claimant)
    requires CanHappen(s, e) && PortInv(s) && p in Picked(s, e) && AutoPort(s, c) == Some(p)
    ensures e.StartClone? || Unreserved(s, c)
  {
    assert IsReserved(s, c);
    if !Unreserved(s, c) {
      HeldIsTaken(s, c);
    }
    if !e.StartClone? {
      PickedIsFree(s, e, p);
    }
  }

  lemma AllocateStep(s: State, op: OpId, ids: seq<Svc>, r: Range)
    requires DeployInv(s) && PortInv(s) && CanHappen(s, Allocate(op, ids, r))
    ensures var t := LanesAllocated(s, op, ids, r); DeployInv(t) && (PortInv(t) <==> !Meets(s, Allocate(op, ids, r)))
  {
    AllocateKeepsPorts(s, op, ids, r);
    AllocateKeepsDeploys(s, op, ids, r);
    AllocateMeets(s, op, ids, r);
  }

  lemma AllocateMeets(s: State, op: OpId, ids: seq<Svc>, r: Range)
    requires CanHappen(s, Allocate(op, ids, r))
    ensures var out := Allocated(r, TakenLanePorts(s), ids);
            Meets(s, Allocate(op, ids, r)) <==> out.Some? && exists svc :: svc in out.value && IsHeld(s, out.value[svc])
  {
    var out, e := Allocated(r, TakenLanePorts(s), ids), Allocate(op, ids, r);
    if out.Some? {
      OneOfTheLanes(s, out.value);
      assert Picked(s, e) == out.value.Values;
      if Meets(s, e) {
        var p :| p in Picked(s, e) && IsHeld(s, p);
        assert p in out.value.Values && IsHeld(s, p);
      }
      if p :| p in out.value.Values && IsHeld(s, p) {
        assert p in Picked(s, e) && IsHeld(s, p);
      }
    } else {
      assert Picked(s, e) == {};
    }
  }

  lemma OneOfTheLanes(s: State, lanes: map<Svc, Port>)
    ensures (exists p :: p in lanes.Values && IsHeld(s, p)) <==> exists svc :: svc in lanes && IsHeld(s, lanes[svc])
  {
    if p :| p in lanes.Values && IsHeld(s, p) {
      var svc :| svc in lanes && lanes[svc] == p;
      assert IsHeld(s, lanes[svc]);
    }
    if svc :| svc in lanes && IsHeld(s, lanes[svc]) {
      assert lanes[svc] in lanes.Values;
    }
  }

  lemma AllocateKeepsDeploys(s: State, op: OpId, ids: seq<Svc>, r: Range)
    requires DeployInv(s) && op in s.ops && s.ops[op].Creating?
    ensures DeployInv(LanesAllocated(s, op, ids, r))
  {
    var out := Allocated(r, TakenLanePorts(s), ids);
    if out.None? {
      SameDeploys(s, Abandoned(s, op));
    } else {
      SameDeploys(s, LanesClaimed(s, op, out.value));
    }
  }

  lemma OpenStep(s: State, op: OpId, o: Op)
    requires DeployInv(s) && PortInv(s) && MayOpen(s, op, o) && (o.origin.Ranged? ==> o.port.value !in TakenLanePorts(s))
    ensures DeployInv(Opened(s, op, o)) && (PortInv(Opened(s, op, o)) <==> forall p :: p in NewPort(o) ==> !IsHeld(s, p))
  {
    OpenedKeepsPorts(s, op, o);
    OpenedKeepsDeploys(s, op, o);
    assert o.port.Some? && !o.origin.Given? ==> o.port.value in NewPort(o);
  }

  lemma StartDeployStep(s: State, op: OpId, branch: BranchId, group: Group, listen: Port, named: Option<Port>, local: bool, r: Range)
    requires DeployInv(s) && PortInv(s) && op !in s.ops && branch in s.rows && GroupIdle(s, branch, group)
    ensures var t := DeployStarted(s, op, branch, group, listen, named, local, r);
            var e := StartDeploy(op, branch, group, listen, named, local, r);
            DeployInv(t) && (PortInv(t) <==> !Meets(s, e))
  {
    var prior, next := PriorPort(s, branch, group), Next(r, TakenLanePorts(s));
    if !local {
      OpenStep(s, op, Deploying(branch, group, listen, None, Given, prior, Once));
    } else if named.Some? {
      OpenStep(s, op, Deploying(branch, group, listen, named, Given, prior, Once));
    } else if prior.Some? {
      OpenStep(s, op, Deploying(branch, group, listen, Some(prior.value.port), Given, prior, Once));
    } else if next.Some? {
      OpenStep(s, op, Deploying(branch, group, listen, next, Ranged, prior, Once));
    }
  }

  lemma StartCloneStep(s: State, e: Event)
    requires DeployInv(s) && PortInv(s) && e.StartClone? && CanHappen(s, e)
    ensures DeployInv(Stepped(s, e)) && (PortInv(Stepped(s, e)) <==> !Meets(s, e))
  {
    OpenStep(s, e.op, CloneStarted(s, e.op, e.branch, e.local).ops[e.op]);
  }

  lemma ReadLaneStep(s: State, e: Event)
    requires DeployInv(s) && PortInv(s) && e.ReadLane? && CanHappen(s, e)
    ensures DeployInv(Stepped(s, e)) && (PortInv(Stepped(s, e)) <==> !Meets(s, e))
  {
    var p := Next(e.range, TakenLanePorts(s));
    if Picked(s, e) != {} {
      LaneSetKeepsPorts(s, e.branch, e.svc, p.value, p.value);
      SameDeploys(s, LaneSet(s, e.branch, e.svc, p.value, p.value));
    }
  }

  lemma MoveLaneStep(s: State, e: Event)
    requires DeployInv(s) && PortInv(s) && e.MoveLane? && CanHappen(s, e)
    ensures DeployInv(Stepped(s, e)) && (PortInv(Stepped(s, e)) <==> !Meets(s, e))
  {
    var p := Next(e.range, TakenLanePorts(s));
    if Picked(s, e) != {} {
      LaneSetKeepsPorts(s, e.branch, e.svc, p.value, e.busy);
      SameDeploys(s, LaneSet(s, e.branch, e.svc, p.value, e.busy));
    }
  }

  lemma ReserveStep(s: State, op: OpId, branch: BranchId, row: Row)
    requires DeployInv(s) && PortInv(s) && op !in s.ops
    ensures DeployInv(Reserved(s, op, branch, row)) && PortInv(Reserved(s, op, branch, row))
  {
    ReserveKeepsPorts(s, op, branch, row);
    SameDeploys(s, Reserved(s, op, branch, row));
  }

  lemma AbandonStep(s: State, op: OpId)
    requires DeployInv(s) && PortInv(s) && op in s.ops && s.ops[op].Creating? && s.ops[op].lanes == map[]
    ensures DeployInv(Abandoned(s, op)) && PortInv(Abandoned(s, op))
  {
    AbandonKeepsPorts(s, op);
    SameDeploys(s, Abandoned(s, op));
  }

  lemma WriteStep(s: State, op: OpId)
    requires DeployInv(s) && PortInv(s) && op in s.ops && s.ops[op].Creating?
    ensures DeployInv(Wrote(s, op)) && PortInv(Wrote(s, op))
  {
    WriteKeepsPorts(s, op);
    SameDeploys(s, Wrote(s, op));
  }

  lemma CommitStep(s: State, op: OpId)
    requires RefInv(s) && DeployInv(s) && PortInv(s) && op in s.ops && s.ops[op].Creating?
    ensures DeployInv(Committed(s, op)) && PortInv(Committed(s, op))
  {
    CommitKeepsPorts(s, op);
    SameDeploys(s, Committed(s, op));
  }

  lemma RollbackStep(s: State, op: OpId, removed: bool)
    requires RefInv(s) && DeployInv(s) && PortInv(s) && op in s.ops && s.ops[op].Creating?
    ensures DeployInv(RolledBack(s, op, removed)) && PortInv(RolledBack(s, op, removed))
  {
    RollbackKeepsPorts(s, op, removed);
    SameDeploys(s, RolledBack(s, op, removed));
  }

  /** Past its allocation no step of a create picks a port. */
  lemma CreateStep(s: State, e: Event)
    requires RefInv(s) && DeployInv(s) && PortInv(s) && CanHappen(s, e)
    requires e.Reserve? || e.Abandon? || e.Write? || e.Commit? || e.Rollback?
    ensures DeployInv(Stepped(s, e)) && PortInv(Stepped(s, e))
  {
    match e
    case Reserve(op, branch, row) => ReserveStep(s, op, branch, row);
    case Abandon(op) => AbandonStep(s, op);
    case Write(op) => WriteStep(s, op);
    case Commit(op) => CommitStep(s, op);
    case Rollback(op, removed) => RollbackStep(s, op, removed);
  }

  lemma DataStep(s: State, branch: BranchId)
    requires DeployInv(s) && PortInv(s) && branch in s.rows
    ensures DeployInv(DataAdded(s, branch)) && PortInv(DataAdded(s, branch))
  {
    SamePorts(s, DataAdded(s, branch));
    SameDeploys(s, DataAdded(s, branch));
  }

  lemma RenameStep(s: State, branch: BranchId, name: string)
    requires DeployInv(s) && PortInv(s) && branch in s.rows
    ensures DeployInv(BranchRenamed(s, branch, name)) && PortInv(BranchRenamed(s, branch, name))
  {
    var t := BranchRenamed(s, branch, name);
    assert t == s.(rows := t.rows) && t.rows.Keys == s.rows.Keys;
    SamePorts(s, t);
    SameDeploys(s, t);
  }

  lemma ListPortsStep(s: State, op: OpId, project: ProjectId, name: string, group: Group, listen: Port)
    requires DeployInv(s) && PortInv(s) && op !in s.ops
    ensures var t := PortsListed(s, op, project, name, group, listen); DeployInv(t) && PortInv(t)
  {
    SamePorts(s, PortsListed(s, op, project, name, group, listen));
    SameDeploys(s, PortsListed(s, op, project, name, group, listen));
  }

  lemma StopCloneStep(s: State, op: OpId)
    requires DeployInv(s) && PortInv(s) && op in s.ops && s.ops[op].Choosing?
    ensures DeployInv(CloneGivenUp(s, op)) && PortInv(CloneGivenUp(s, op))
  {
    SamePorts(s, CloneGivenUp(s, op));
    SameDeploys(s, CloneGivenUp(s, op));
  }

  /** Nor do those that only move or drop rows. */
  lemma RowStep(s: State, e: Event)
    requires DeployInv(s) && PortInv(s) && CanHappen(s, e)
    requires e.AddData? || e.Drop? || e.RenameBranch? || e.RenameGroup? || e.ListPorts? || e.StopClone?
    ensures DeployInv(Stepped(s, e)) && PortInv(Stepped(s, e))
  {
    match e
    case AddData(branch) => DataStep(s, branch);
    case Drop(branch, unwinding) =>
      DropKeepsPorts(s, branch, unwinding);
      DropKeepsDeploys(s, branch, unwinding);
    case RenameBranch(branch, name) => RenameStep(s, branch, name);
    case RenameGroup(project, before, after) =>
      RenameGroupKeepsPorts(s, project, before, after);
      RenameGroupKeepsDeploys(s, project, before, after);
    case ListPorts(op, project, name, group, listen) => ListPortsStep(s, op, project, name, group, listen);
    case StopClone(op) => StopCloneStep(s, op);
  }

  lemma EndStep(s: State, op: OpId, end: End)
    requires DeployInv(s) && PortInv(s) && CanHappen(s, EndDeploy(op, end))
    ensures DeployInv(DeployEnded(s, op, end)) && (PortInv(DeployEnded(s, op, end)) <==> !Steals(s, op, end))
  {
    EndKeepsPorts(s, op, end);
    if end.Written? {
      WrittenKeepsDeploys(s, op);
    } else {
      FailedKeepsDeploys(s, op, end.PortBusy?);
    }
  }

  predicate Picks(e: Event) {
    e.Allocate? || e.StartDeploy? || e.StartClone? || e.ReadLane? || e.MoveLane?
  }

  lemma PickStep(s: State, e: Event)
    requires DeployInv(s) && PortInv(s) && CanHappen(s, e) && Picks(e)
    ensures DeployInv(Stepped(s, e)) && (PortInv(Stepped(s, e)) <==> !Meets(s, e))
  {
    match e
    case Allocate(op, ids, range) => AllocateStep(s, op, ids, range);
    case StartDeploy(op, branch, group, listen, named, local, range) => StartDeployStep(s, op, branch, group, listen, named, local, range);
    case StartClone(_, _, _) => StartCloneStep(s, e);
    case ReadLane(_, _, _, _, _) => ReadLaneStep(s, e);
    case MoveLane(_, _, _, _) => MoveLaneStep(s, e);
  }

  lemma StepKeepsPorts(s: State, e: Event)
    requires RefInv(s) && DeployInv(s) && PortInv(s) && CanHappen(s, e)
    ensures DeployInv(Stepped(s, e)) && (PortInv(Stepped(s, e)) <==> !Clashes(s, e))
  {
    if Picks(e) {
      PickStep(s, e);
    } else if e.EndDeploy? {
      EndStep(s, e.op, e.end);
    } else if e.Reserve? || e.Abandon? || e.Write? || e.Commit? || e.Rollback? {
      CreateStep(s, e);
    } else {
      RowStep(s, e);
    }
  }

  // ---- whole runs ------------------------------------------------------------------------------

  lemma StartsClean()
    ensures DeployInv(Empty()) && PortInv(Empty())
  {
    var s := Empty();
    forall op ensures DeployOk(s, op) {}
    forall op, oq ensures DeploysApart(s, op, oq) {}
    forall c ensures IsReserved(s, c) {}
    forall c, d ensures Apart(s, c, d) {}
  }

  /** None of the first `n` steps clashes. */
  ghost predicate Peaceful(run: seq<Event>, at: seq<State>, n: nat)
    requires IsRun(run, at) && n <= |run|
  {
    forall i :: 0 <= i < n ==> !Clashes(at[i], run[i])
  }

  lemma {:induction false} PortsAlwaysHold(run: seq<Event>, at: seq<State>, n: nat)
    requires IsRun(run, at) && n <= |run| && Peaceful(run, at, n)
    ensures DeployInv(at[n]) && PortInv(at[n])
  {
    if n > 0 {
      PortsAlwaysHold(run, at, n - 1);
      RefsAlwaysHold(run, at, n - 1);
      StepKeepsPorts(at[n - 1], run[n - 1]);
    } else {
      StartsClean();
    }
  }

  /** Over every interleaving in which no step clashes, no two lane or host ports the engine picked
      coincide, on rows or in flight. */
  lemma AutomaticPortsAreDistinct(run: seq<Event>, at: seq<State>, n: nat, c: Claimant, d: Claimant)
    requires IsRun(run, at) && n <= |run| && Peaceful(run, at, n)
    requires c != d && AutoPort(at[n], c).Some?
    ensures AutoPort(at[n], c) != AutoPort(at[n], d)
  {
    PortsAlwaysHold(run, at, n);
    assert Apart(at[n], c, d);
  }

  /** And the first step that does leaves two that coincide or one counted on without a reservation: the
      claims hold throughout a run exactly when none does. */
  lemma ExactlyWhenNothingClashes(run: seq<Event>, at: seq<State>, n: nat)
    requires IsRun(run, at) && n <= |run|
    ensures (forall i :: 0 <= i <= n ==> PortInv(at[i])) <==> Peaceful(run, at, n)
  {
    if Peaceful(run, at, n) {
      forall i | 0 <= i <= n ensures PortInv(at[i]) {
        PortsAlwaysHold(run, at, i);
      }
    } else {
      FirstClash(run, at, n);
    }
  }

  lemma {:induction false} FirstClash(run: seq<Event>, at: seq<State>, n: nat)
    requires IsRun(run, at) && n <= |run| && !Peaceful(run, at, n)
    ensures exists i :: 0 <= i <= n && !PortInv(at[i])
  {
    if !Peaceful(run, at, n - 1) {
      FirstClash(run, at, n - 1);
    } else {
      PortsAlwaysHold(run, at, n - 1);
      RefsAlwaysHold(run, at, n - 1);
      StepKeepsPorts(at[n - 1], run[n - 1]);
      assert !PortInv(at[n]);
    }
  }
}

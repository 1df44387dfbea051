/** The exclusive claims of src/engine.ts: branch refs, and the one loopback port space that database lanes
    and published apps share. */
module Claims {

  type BranchId = string
  type ProjectId = string
  type Ref = string
  type Svc = string
  type Group = string
  type Port = int
  type OpId = int

  datatype Option<T> = None | Some(value: T)

  datatype Row = Row(project: ProjectId, name: string, ref: Ref, isDefault: bool)

  /** Where a host port comes from: the caller, the lane range, or the candidates tried for a group that is
      deployed over from another branch. The rows do not say; it is kept here to speak of. */
  datatype Origin = Given | Ranged | Cloned

  datatype HostPort = HostPort(port: Port, origin: Origin)

  /** A compute group on a branch: the port its container listens on, and the one published for it. */
  datatype App = App(listen: Port, host: Option<HostPort>)

  /** A create between its reservations and its commit; a group that is being deployed over, between two
      candidates; a deploy between its port and its row. */
  datatype Op =
    | Creating(branch: BranchId, row: Row, lanes: map<Svc, Port>, wrote: bool)
    | Choosing(project: ProjectId, name: string, group: Group, listen: Port, left: seq<Port>)
    | Deploying(branch: BranchId, group: Group, listen: Port, port: Option<Port>, origin: Origin, prior: Option<HostPort>, next: Retry)

  /** What is left to try, on the branch that has the name then. */
  datatype Retry = Once | Again(project: ProjectId, name: string, left: seq<Port>)

  /** How a deploy ends: its row is written, its port is busy, or it fails otherwise. */
  datatype End = Written | PortBusy | Failed

  /** Under a root that stands there are bytes of some branches. */
  datatype State = State(
    rows: map<BranchId, Row>,
    lanes: map<BranchId, map<Svc, Port>>,
    apps: map<(BranchId, Group), App>,
    branchReservations: map<Ref, BranchId>,
    laneReservations: map<Port, BranchId>,
    roots: map<Ref, set<BranchId>>,
    ops: map<OpId, Op>)

  datatype Range = Range(lo: Port, hi: Port, busy: set<Port>)

  // ---- ports -----------------------------------------------------------------------------------

  function LanePorts(s: State): set<Port> {
    set b, svc | b in s.lanes && svc in s.lanes[b] :: s.lanes[b][svc]
  }

  function HostPorts(s: State): set<Port> {
    set k | k in s.apps && s.apps[k].host.Some? :: s.apps[k].host.value.port
  }

  function TakenLanePorts(s: State): set<Port> {
    LanePorts(s) + s.laneReservations.Keys + HostPorts(s)
  }

  /** The lowest port of the range that is neither taken nor busy. */
  predicate IsNext(r: Range, taken: set<Port>, p: Port) {
    && r.lo <= p <= r.hi && p !in taken && p !in r.busy
    && forall q :: r.lo <= q < p ==> q in taken || q in r.busy
  }

  function NextFrom(r: Range, taken: set<Port>, p: Port): (next: Option<Port>)
    requires r.lo <= p && forall q :: r.lo <= q < p ==> q in taken || q in r.busy
    ensures next.Some? ==> IsNext(r, taken, next.value)
    ensures next.None? ==> forall q :: r.lo <= q <= r.hi ==> q in taken || q in r.busy
    decreases r.hi + 1 - p
  {
    if p > r.hi then None
    else if p !in taken && p !in r.busy then Some(p)
    else NextFrom(r, taken, p + 1)
  }

  function Next(r: Range, taken: set<Port>): Option<Port> {
    NextFrom(r, taken, r.lo)
  }

  /** One port for each service, in order, each the lowest left. */
  function Allocated(r: Range, taken: set<Port>, ids: seq<Svc>): Option<map<Svc, Port>> {
    if ids == [] then Some(map[])
    else
      var out := Allocated(r, taken, ids[..|ids| - 1]);
      if out.None? then None
      else
        var p := Next(r, taken + out.value.Values);
        if p.None? then None else Some(out.value[ids[|ids| - 1] := p.value])
  }

  const CANDIDATES := 5

  function UsedHostPorts(s: State): set<Port> {
    set k | k in s.apps :: if s.apps[k].host.Some? then s.apps[k].host.value.port else s.apps[k].listen
  }

  function Nth(base: Port, k: int): Port {
    base + 1000 * k
  }

  /** The first `count` candidates, ascending. */
  function Candidates(used: set<Port>, base: Port, k: nat, count: nat): (out: seq<Port>)
    ensures |out| <= count
    decreases 50 - k, base, used
  {
    if count == 0 || k >= 50 then []
    else
      var c := Nth(base, k);
      if c in used then Candidates(used, base, k + 1, count) else [c] + Candidates(used, base, k + 1, count - 1)
  }

  // ---- what the steps do -----------------------------------------------------------------------

  predicate NameTaken(s: State, project: ProjectId, name: string) {
    exists b :: b in s.rows && s.rows[b].project == project && s.rows[b].name == name
  }

  predicate RefTaken(s: State, row: Row, branch: BranchId) {
    || NameTaken(s, row.project, row.name)
    || (exists b :: b in s.rows && s.rows[b].ref == row.ref)
    || (row.ref in s.branchReservations && s.branchReservations[row.ref] != branch)
  }

  /** A create claims its ref before anything of it exists; refused, it leaves no trace. */
  function Reserved(s: State, op: OpId, branch: BranchId, row: Row): State {
    if RefTaken(s, row, branch) then s
    else s.(branchReservations := s.branchReservations[row.ref := branch], ops := s.ops[op := Creating(branch, row, map[], false)])
  }

  function LanesWithout(held: map<Port, BranchId>, branch: BranchId): map<Port, BranchId> {
    map p | p in held && held[p] != branch :: held[p]
  }

  function LanesReleased(s: State, branch: BranchId): State {
    s.(laneReservations := LanesWithout(s.laneReservations, branch))
  }

  function RefsWithout(held: map<Ref, BranchId>, branch: BranchId, ref: Ref): map<Ref, BranchId> {
    if ref in held && held[ref] == branch then held - {ref} else held
  }

  function RefReleased(s: State, branch: BranchId, ref: Ref): State {
    s.(branchReservations := RefsWithout(s.branchReservations, branch, ref))
  }

  /** A create that ends before it has made anything gives its ref back. */
  function Abandoned(s: State, op: OpId): State
    requires op in s.ops && s.ops[op].Creating?
  {
    RefReleased(s.(ops := s.ops - {op}), s.ops[op].branch, s.ops[op].row.ref)
  }

  function LanesClaimed(s: State, op: OpId, lanes: map<Svc, Port>): State
    requires op in s.ops && s.ops[op].Creating?
  {
    s.(laneReservations := s.laneReservations + (map p | p in lanes.Values :: s.ops[op].branch),
       ops := s.ops[op := s.ops[op].(lanes := lanes)])
  }

  /** Its network made, a create reserves all its lanes, or ends. */
  function LanesAllocated(s: State, op: OpId, ids: seq<Svc>, r: Range): State
    requires op in s.ops && s.ops[op].Creating?
  {
    var out := Allocated(r, TakenLanePorts(s), ids);
    if out.None? then Abandoned(s, op) else LanesClaimed(s, op, out.value)
  }

  function Under(s: State, ref: Ref): set<BranchId> {
    if ref in s.roots then s.roots[ref] else {}
  }

  function Wrote(s: State, op: OpId): State
    requires op in s.ops && s.ops[op].Creating?
  {
    s.(roots := s.roots[s.ops[op].row.ref := Under(s, s.ops[op].row.ref) + {s.ops[op].branch}], ops := s.ops[op := s.ops[op].(wrote := true)])
  }

  /** The row is the claim from here on, and retires the reservations it supersedes. */
  function Committed(s: State, op: OpId): State
    requires op in s.ops && s.ops[op].Creating?
  {
    var o := s.ops[op];
    var t := s.(rows := s.rows[o.branch := o.row],
                lanes := s.lanes[o.branch := o.lanes],
                ops := s.ops - {op});
    RefReleased(LanesReleased(t, o.branch), o.branch, o.row.ref)
  }

  /** The branch root carries no owner of its own: it goes only while this create holds the ref, and not if
      its removal fails. The ref is given back all the same. */
  function RolledBack(s: State, op: OpId, removed: bool): State
    requires op in s.ops && s.ops[op].Creating?
  {
    var o := s.ops[op];
    var owns := o.row.ref in s.branchReservations && s.branchReservations[o.row.ref] == o.branch;
    var t := s.(roots := if owns && removed then s.roots - {o.row.ref} else s.roots, ops := s.ops - {op});
    RefReleased(LanesReleased(t, o.branch), o.branch, o.row.ref)
  }

  /** A service added to a branch later may be the first to put anything under its root. */
  function DataAdded(s: State, branch: BranchId): State
    requires branch in s.rows
  {
    s.(roots := s.roots[s.rows[branch].ref := Under(s, s.rows[branch].ref) + {branch}])
  }

  /** A branch whose demolition all went. The unwinding of a failed create also gives back what is still
      reserved in its name; a delete does not. */
  function Dropped(s: State, branch: BranchId, unwinding: bool): State
    requires branch in s.rows
  {
    var t := s.(rows := s.rows - {branch},
                roots := s.roots - {s.rows[branch].ref},
                lanes := s.lanes - {branch},
                apps := map k | k in s.apps && k.0 != branch :: s.apps[k]);
    if unwinding then LanesReleased(RefReleased(t, branch, s.rows[branch].ref), branch) else t
  }

  /** What a branch is called moves; its ref, and all that is named by it, stays. */
  function BranchRenamed(s: State, branch: BranchId, name: string): State
    requires branch in s.rows
  {
    var row := s.rows[branch];
    if row.isDefault || (name != row.name && NameTaken(s, row.project, name)) then s
    else s.(rows := s.rows[branch := row.(name := name)])
  }

  function Carriers(s: State, project: ProjectId, group: Group): set<BranchId> {
    set b | b in s.rows && s.rows[b].project == project && (b, group) in s.apps
  }

  function Moved(apps: map<(BranchId, Group), App>, who: set<BranchId>, before: Group, after: Group): map<(BranchId, Group), App>
    requires forall b :: b in who ==> (b, before) in apps
  {
    (map k | k in apps && !(k.1 == before && k.0 in who) :: apps[k]) + map b | b in who :: (b, after) := apps[(b, before)]
  }

  /** The rows of every branch of the project that carries the group move together. */
  function GroupRenamed(s: State, project: ProjectId, before: Group, after: Group): State {
    if before == after || Carriers(s, project, after) != {} then s
    else s.(apps := Moved(s.apps, Carriers(s, project, before), before, after))
  }

  function PriorPort(s: State, branch: BranchId, group: Group): Option<HostPort> {
    if (branch, group) in s.apps then s.apps[(branch, group)].host else None
  }

  /** A deploy under way; a port out of the range is reserved as it is picked. */
  function Opened(s: State, op: OpId, o: Op): State
    requires o.Deploying? && (o.origin.Ranged? ==> o.port.Some?)
  {
    s.(laneReservations := if o.origin.Ranged? then s.laneReservations[o.port.value := o.branch] else s.laneReservations,
       ops := s.ops[op := o])
  }

  /** A port the caller named, the one the row has, or one out of the range. Server mode publishes
      nothing. */
  function DeployStarted(s: State, op: OpId, branch: BranchId, group: Group, listen: Port, named: Option<Port>, local: bool, r: Range): State {
    var prior := PriorPort(s, branch, group);
    if !local then Opened(s, op, Deploying(branch, group, listen, None, Given, prior, Once))
    else if named.Some? then Opened(s, op, Deploying(branch, group, listen, named, Given, prior, Once))
    else if prior.Some? then Opened(s, op, Deploying(branch, group, listen, Some(prior.value.port), Given, prior, Once))
    else
      var p := Next(r, TakenLanePorts(s));
      if p.None? then s else Opened(s, op, Deploying(branch, group, listen, p, Ranged, prior, Once))
  }

  /** The candidates of a group that is deployed over are listed once, before the first is tried. */
  function PortsListed(s: State, op: OpId, project: ProjectId, name: string, group: Group, listen: Port): State {
    s.(ops := s.ops[op := Choosing(project, name, group, listen, Candidates(UsedHostPorts(s), listen, 1, CANDIDATES))])
  }

  /** The next candidate is tried on the branch that has the name now, as if a caller had named the port:
      nothing is reserved. */
  function CloneStarted(s: State, op: OpId, branch: BranchId, local: bool): State
    requires op in s.ops && s.ops[op].Choosing? && s.ops[op].left != []
  {
    var o := s.ops[op];
    var prior := PriorPort(s, branch, o.group);
    var p := o.left[0];
    var origin := if !local || (prior.Some? && prior.value.port == p) then Given else Cloned;
    Opened(s, op, Deploying(branch, o.group, o.listen, if local then Some(p) else None, origin, prior, Again(o.project, o.name, o.left[1..])))
  }

  /** No candidate is left, or the branch went meanwhile. */
  function CloneGivenUp(s: State, op: OpId): State {
    s.(ops := s.ops - {op})
  }

  /** The row takes the port over: whatever reservation stands on it goes. */
  function DeployWritten(s: State, op: OpId): State
    requires op in s.ops && s.ops[op].Deploying?
  {
    var o := s.ops[op];
    var k := (o.branch, o.group);
    match o.port
    case None => s.(apps := s.apps[k := App(o.listen, None)], ops := s.ops - {op})
    case Some(p) =>
      var origin := if o.origin.Given? && o.prior.Some? && o.prior.value.port == p then o.prior.value.origin else o.origin;
      s.(apps := s.apps[k := App(o.listen, Some(HostPort(p, origin)))], laneReservations := s.laneReservations - {p}, ops := s.ops - {op})
  }

  /** A deploy that never got to its row gives the port back, unless the row already had it. One whose
      port was busy goes on with the candidates that are left. */
  function DeployFailed(s: State, op: OpId, busy: bool): State
    requires op in s.ops && s.ops[op].Deploying?
  {
    var o := s.ops[op];
    var kept := o.port.None? || (o.prior.Some? && o.prior.value.port == o.port.value);
    s.(laneReservations := if kept then s.laneReservations else s.laneReservations - {o.port.value},
       ops := if busy && o.next.Again? && o.next.left != []
              then s.ops[op := Choosing(o.next.project, o.next.name, o.group, o.listen, o.next.left)] else s.ops - {op})
  }

  function DeployEnded(s: State, op: OpId, end: End): State
    requires op in s.ops && s.ops[op].Deploying?
  {
    if end.Written? then DeployWritten(s, op) else DeployFailed(s, op, end.PortBusy?)
  }

  /** Local mode gives every database service a port, server mode MySQL alone; and only a branch with a
      row has any. */
  predicate LaneNeeded(s: State, branch: BranchId, local: bool, mysql: bool) {
    branch in s.rows && (local || mysql)
  }

  function LanesOf(s: State, branch: BranchId): map<Svc, Port> {
    if branch in s.lanes then s.lanes[branch] else map[]
  }

  /** A lane on its row; a reservation goes. */
  function LaneSet(s: State, branch: BranchId, svc: Svc, port: Port, gone: Port): State {
    s.(lanes := s.lanes[branch := LanesOf(s, branch)[svc := port]], laneReservations := s.laneReservations - {gone})
  }

  /** The first read of a service added later allocates its lane and records it at once. */
  function LaneRead(s: State, branch: BranchId, svc: Svc, local: bool, mysql: bool, r: Range): State {
    if svc in LanesOf(s, branch) || !LaneNeeded(s, branch, local, mysql) then s
    else
      var p := Next(r, TakenLanePorts(s));
      if p.None? then s else LaneSet(s, branch, svc, p.value, p.value)
  }

  /** A lane whose port something else has come to listen on moves to another, and what was reserved of the
      old port goes. */
  function LaneMoved(s: State, branch: BranchId, svc: Svc, busy: Port, r: Range): State {
    var p := Next(r, TakenLanePorts(s));
    if p.None? || branch !in s.rows then s else LaneSet(s, branch, svc, p.value, busy)
  }

  // ---- the program -----------------------------------------------------------------------------

  class Engine {
    var rows: map<BranchId, Row>
    var lanes: map<BranchId, map<Svc, Port>>
    var apps: map<(BranchId, Group), App>
    var branchReservations: map<Ref, BranchId>
    var laneReservations: map<Port, BranchId>
    var roots: map<Ref, set<BranchId>>
    /** What is in flight: the locals of the creates and deploys that are waiting. */
    var ops: map<OpId, Op>

    function View(): State
      reads this
    {
      State(rows, lanes, apps, branchReservations, laneReservations, roots, ops)
    }

    constructor ()
      ensures View() == State(map[], map[], map[], map[], map[], map[], map[])
    {
      rows, lanes, apps, branchReservations, laneReservations, roots, ops := map[], map[], map[], map[], map[], map[], map[];
    }

    /** `nextLanePort`; None where the source throws. */
    static method NextLanePort(r: Range, taken: set<Port>) returns (port: Option<Port>)
      ensures port == Next(r, taken)
    {
      var p := r.lo;
      while p <= r.hi
        invariant r.lo <= p && forall q :: r.lo <= q < p ==> q in taken || q in r.busy
        invariant Next(r, taken) == NextFrom(r, taken, p)
        decreases r.hi + 1 - p
      {
        if p !in taken && p !in r.busy {
          return Some(p);
        }
        p := p + 1;
      }
      return None;
    }

    /** `reserveBranchRef`: false where the source throws. */
    method ReserveBranchRef(row: Row, branch: BranchId) returns (ok: bool)
      modifies this`branchReservations
      ensures ok <==> !RefTaken(old(View()), row, branch)
      ensures branchReservations == if ok then old(branchReservations)[row.ref := branch] else old(branchReservations)
    {
      var todo := rows.Keys;
      while todo != {}
        invariant todo <= rows.Keys
        invariant forall b :: b in rows && b !in todo ==> rows[b].ref != row.ref && !(rows[b].project == row.project && rows[b].name == row.name)
        decreases todo
      {
        var b :| b in todo;
        if rows[b].project == row.project && rows[b].name == row.name {
          return false;
        }
        if rows[b].ref == row.ref {
          return false;
        }
        todo := todo - {b};
      }
      if row.ref in branchReservations && branchReservations[row.ref] != branch {
        return false;
      }
      branchReservations := branchReservations[row.ref := branch];
      return true;
    }

    /** `allocLanes`: one synchronous stretch, all or nothing. */
    method AllocLanes(branch: BranchId, ids: seq<Svc>, r: Range) returns (out: Option<map<Svc, Port>>)
      modifies this`laneReservations
      ensures out == Allocated(r, TakenLanePorts(old(View())), ids)
      ensures laneReservations == if out.None? then old(laneReservations) else old(laneReservations) + map p | p in out.value.Values :: branch
    {
      var taken := TakenLanePorts(View());
      var lanes := map[];
      var i := 0;
      while i < |ids|
        invariant 0 <= i <= |ids| && laneReservations == old(laneReservations)
        invariant Allocated(r, taken, ids[..i]) == Some(lanes)
      {
        assert ids[..i + 1][..i] == ids[..i];
        var p := NextLanePort(r, taken + lanes.Values);
        if p.None? {
          AllocationFails(r, taken, ids, i + 1);
          return None;
        }
        lanes := lanes[ids[i] := p.value];
        i := i + 1;
      }
      assert ids[..i] == ids;
      laneReservations := laneReservations + map p | p in lanes.Values :: branch;
      out := Some(lanes);
    }

    /** The first step of `provisionBranch`. */
    method Reserve(op: OpId, branch: BranchId, row: Row) returns (ok: bool)
      modifies this
      ensures View() == Reserved(old(View()), op, branch, row)
      ensures ok <==> !RefTaken(old(View()), row, branch)
    {
      ok := ReserveBranchRef(row, branch);
      if ok {
        ops := ops[op := Creating(branch, row, map[], false)];
      }
    }

    /** Its second, once the network is there. */
    method ReserveLanes(op: OpId, ids: seq<Svc>, r: Range) returns (ok: bool)
      requires op in ops && ops[op].Creating?
      modifies this
      ensures View() == LanesAllocated(old(View()), op, ids, r)
      ensures ok <==> op in ops
    {
      var o := ops[op];
      var lanes := AllocLanes(o.branch, ids, r);
      if lanes.None? {
        Abandon(op);
        return false;
      }
      ops := ops[op := o.(lanes := lanes.value)];
      return true;
    }

    /** The throws of `provisionBranch` before it has provisioned anything. */
    method Abandon(op: OpId)
      requires op in ops && ops[op].Creating?
      modifies this
      ensures View() == Abandoned(old(View()), op)
    {
      var o := ops[op];
      ops := ops - {op};
      ReleaseBranchRef(o.row.ref, o.branch);
    }

    method ReleaseBranchRef(ref: Ref, branch: BranchId)
      modifies this`branchReservations
      ensures branchReservations == RefsWithout(old(branchReservations), branch, ref)
    {
      if ref in branchReservations && branchReservations[ref] == branch {
        branchReservations := branchReservations - {ref};
      }
    }

    method ReleaseLanes(branch: BranchId)
      modifies this`laneReservations
      ensures laneReservations == LanesWithout(old(laneReservations), branch)
    {
      var todo := laneReservations.Keys;
      while todo != {}
        invariant todo <= laneReservations.Keys
        invariant laneReservations == map p | p in old(laneReservations) && (p in todo || old(laneReservations)[p] != branch) :: old(laneReservations)[p]
        decreases todo
      {
        assert (forall q :: q !in todo) ==> todo == {};
        var p :| p in todo;
        todo := todo - {p};
        if laneReservations[p] == branch {
          laneReservations := laneReservations - {p};
        }
      }
    }

    /** The mutate that writes the branch row. */
    method Commit(op: OpId)
      requires op in ops && ops[op].Creating?
      modifies this
      ensures View() == Committed(old(View()), op)
    {
      var o := ops[op];
      rows := rows[o.branch := o.row];
      lanes := lanes[o.branch := o.lanes];
      ops := ops - {op};
      ReleaseLanes(o.branch);
      ReleaseBranchRef(o.row.ref, o.branch);
    }

    /** `rollback`; a removal that fails is swallowed. */
    method Rollback(op: OpId, removed: bool)
      requires op in ops && ops[op].Creating?
      modifies this
      ensures View() == RolledBack(old(View()), op, removed)
    {
      var o := ops[op];
      if o.row.ref in branchReservations && branchReservations[o.row.ref] == o.branch {
        if removed {
          roots := roots - {o.row.ref};
        }
      }
      ops := ops - {op};
      ReleaseLanes(o.branch);
      ReleaseBranchRef(o.row.ref, o.branch);
    }

    /** `renameBranch`: false where the source throws. */
    method RenameBranch(branch: BranchId, name: string) returns (ok: bool)
      requires branch in rows
      modifies this`rows
      ensures View() == BranchRenamed(old(View()), branch, name)
      ensures ok <==> !old(rows)[branch].isDefault && (name == old(rows)[branch].name || !NameTaken(old(View()), old(rows)[branch].project, name))
    {
      var row := rows[branch];
      if row.isDefault || (name != row.name && exists b :: b in rows && rows[b].project == row.project && rows[b].name == name) {
        return false;
      }
      rows := rows[branch := row.(name := name)];
      return true;
    }

    /** The state write of `renameComputeService`, carrier by carrier. */
    method RenameGroup(project: ProjectId, before: Group, after: Group)
      modifies this`apps
      ensures View() == GroupRenamed(old(View()), project, before, after)
    {
      if before == after || Carriers(View(), project, after) != {} {
        return;
      }
      MoveRows(Carriers(View(), project, before), before, after);
    }

    method MoveRows(carriers: set<BranchId>, before: Group, after: Group)
      requires before != after && forall b :: b in carriers ==> (b, before) in apps
      modifies this`apps
      ensures apps == Moved(old(apps), carriers, before, after)
    {
      var todo := carriers;
      ghost var was, done: set<BranchId> := apps, {};
      while todo != {}
        invariant todo !! done && todo + done == carriers
        invariant apps == Moved(was, done, before, after)
        decreases todo
      {
        var b :| b in todo;
        MovedOne(was, done, before, after, b);
        apps := apps[(b, after) := apps[(b, before)]] - {(b, before)};
        todo, done := todo - {b}, done + {b};
      }
      assert done == carriers;
    }

    /** `localHostPort`, as the deploy that asked remembers it. */
    method LocalHostPort(op: OpId, branch: BranchId, group: Group, listen: Port, named: Option<Port>, local: bool, r: Range)
      modifies this
      ensures View() == DeployStarted(old(View()), op, branch, group, listen, named, local, r)
    {
      var prior := if (branch, group) in apps then apps[(branch, group)].host else None;
      if !local {
        ops := ops[op := Deploying(branch, group, listen, None, Given, prior, Once)];
        return;
      }
      var pinned := if named.Some? then named else if prior.Some? then Some(prior.value.port) else None;
      if pinned.Some? {
        ops := ops[op := Deploying(branch, group, listen, pinned, Given, prior, Once)];
        return;
      }
      var p := NextLanePort(r, TakenLanePorts(View()));
      if p.Some? {
        laneReservations := laneReservations[p.value := branch];
        ops := ops[op := Deploying(branch, group, listen, p, Ranged, prior, Once)];
      }
    }

    /** The loop of `freeHostPorts`. */
    static method FirstFree(used: set<Port>, base: Port, count: nat) returns (out: seq<Port>)
      ensures out == Candidates(used, base, 1, count)
    {
      out := [];
      var k := 1;
      ghost var all := Candidates(used, base, k, count);
      while |out| < count && k < 50
        invariant 1 <= k <= 50 && |out| <= count
        invariant all == out + Candidates(used, base, k, count - |out|)
      {
        var cand := Nth(base, k);
        if cand !in used {
          ghost var rest := Candidates(used, base, k + 1, count - |out| - 1);
          assert out + ([cand] + rest) == out + [cand] + rest;
          out := out + [cand];
        }
        k := k + 1;
      }
    }

    /** `freeHostPorts`. */
    method FreeHostPorts(base: Port, count: nat) returns (out: seq<Port>)
      ensures out == Candidates(UsedHostPorts(View()), base, 1, count)
    {
      out := FirstFree(UsedHostPorts(View()), base, count);
    }

    /** `deployAllocatingPort`, up to its first try. */
    method ListPorts(op: OpId, project: ProjectId, name: string, group: Group, listen: Port)
      modifies this`ops
      ensures View() == PortsListed(old(View()), op, project, name, group, listen)
    {
      var left := FreeHostPorts(listen, CANDIDATES);
      ops := ops[op := Choosing(project, name, group, listen, left)];
    }

    /** One try: a deploy that names the candidate. */
    method StartClone(op: OpId, branch: BranchId, local: bool)
      requires op in ops && ops[op].Choosing? && ops[op].left != []
      modifies this
      ensures View() == CloneStarted(old(View()), op, branch, local)
    {
      var o := ops[op];
      var prior := if (branch, o.group) in apps then apps[(branch, o.group)].host else None;
      var port := if local then Some(o.left[0]) else None;
      var origin := if port.None? || (prior.Some? && prior.value.port == port.value) then Given else Cloned;
      ops := ops[op := Deploying(branch, o.group, o.listen, port, origin, prior, Again(o.project, o.name, o.left[1..]))];
    }

    /** The end of a deploy: its row write, or the release of its port. */
    method EndDeploy(op: OpId, end: End)
      requires op in ops && ops[op].Deploying?
      modifies this
      ensures View() == DeployEnded(old(View()), op, end)
    {
      var o := ops[op];
      ops := ops - {op};
      if !end.Written? {
        if o.port.Some? && !(o.prior.Some? && o.prior.value.port == o.port.value) {
          laneReservations := laneReservations - {o.port.value};
        }
        if end.PortBusy? && o.next.Again? && o.next.left != [] {
          ops := ops[op := Choosing(o.next.project, o.next.name, o.group, o.listen, o.next.left)];
        }
        return;
      }
      if o.port.None? {
        apps := apps[(o.branch, o.group) := App(o.listen, None)];
        return;
      }
      var p := o.port.value;
      var origin := if o.origin.Given? && o.prior.Some? && o.prior.value.port == p then o.prior.value.origin else o.origin;
      apps := apps[(o.branch, o.group) := App(o.listen, Some(HostPort(p, origin)))];
      laneReservations := laneReservations - {p};
    }

    /** `laneFor`; None where the source throws. */
    method LaneFor(branch: BranchId, svc: Svc, fallback: Port, local: bool, mysql: bool, r: Range) returns (port: Option<Port>)
      modifies this
      ensures View() == LaneRead(old(View()), branch, svc, local, mysql, r)
      ensures port == if svc in LanesOf(old(View()), branch) then Some(LanesOf(old(View()), branch)[svc])
                      else if LaneNeeded(old(View()), branch, local, mysql) then Next(r, TakenLanePorts(old(View()))) else Some(fallback)
    {
      var known := LanesOf(View(), branch);
      if svc in known {
        return Some(known[svc]);
      }
      if branch !in rows || !(local || mysql) {
        return Some(fallback);
      }
      port := NextLanePort(r, TakenLanePorts(View()));
      if port.Some? {
        lanes := lanes[branch := known[svc := port.value]];
        laneReservations := laneReservations - {port.value};
      }
    }

    /** The router's re-pick of a busy lane; None where the source throws. */
    method MoveLane(branch: BranchId, svc: Svc, busy: Port, r: Range) returns (port: Option<Port>)
      modifies this
      ensures View() == LaneMoved(old(View()), branch, svc, busy, r)
      ensures port == Next(r, TakenLanePorts(old(View())))
    {
      port := NextLanePort(r, TakenLanePorts(View()));
      if port.Some? && branch in rows {
        lanes := lanes[branch := LanesOf(View(), branch)[svc := port.value]];
        laneReservations := laneReservations - {busy};
      }
    }
  }

  lemma MovedOne(apps: map<(BranchId, Group), App>, done: set<BranchId>, before: Group, after: Group, b: BranchId)
    requires forall d :: d in done + {b} ==> (d, before) in apps
    requires before != after && b !in done
    ensures (b, before) in Moved(apps, done, before, after)
    ensures Moved(apps, done + {b}, before, after)
         == Moved(apps, done, before, after)[(b, after) := Moved(apps, done, before, after)[(b, before)]] - {(b, before)}
  {
    var was, all := Moved(apps, done, before, after), Moved(apps, done + {b}, before, after);
    var one := was[(b, after) := was[(b, before)]] - {(b, before)};
    forall k ensures k in all <==> k in one {}
    forall k | k in all ensures all[k] == one[k] {}
  }

  lemma {:induction false} AllocationFails(r: Range, taken: set<Port>, ids: seq<Svc>, n: nat)
    requires n <= |ids| && Allocated(r, taken, ids[..n]).None?
    ensures Allocated(r, taken, ids).None?
    decreases |ids| - n
  {
    if n < |ids| {
      assert ids[..n + 1][..n] == ids[..n];
      AllocationFails(r, taken, ids, n + 1);
    } else {
      assert ids[..n] == ids;
    }
  }
}

/** Branch names, which src/engine.ts keeps unique within a project: a create checks rows and its own ref, a
    rename checks rows alone. */
module ClaimNames {

  import opened Claims
  import opened ClaimRuns
  import opened ClaimWitnesses

  datatype Called = Called(project: ProjectId, name: string)

  function NameOf(s: State, h: Holder): Option<Called> {
    match h
    case RowHolder(b) => if b in s.rows then Some(Called(s.rows[b].project, s.rows[b].name)) else None
    case CreateHolder(op) => if op in s.ops && s.ops[op].Creating? then Some(Called(s.ops[op].row.project, s.ops[op].row.name)) else None
  }

  /** A branch and another, or a create in flight, are never called the same in one project. */
  predicate NamesApart(s: State, g: Holder, h: Holder) {
    g != h && NameOf(s, g).Some? ==> NameOf(s, g) != NameOf(s, h)
  }

  ghost predicate NameInv(s: State) {
    forall g, h :: NamesApart(s, g, h)
  }

  predicate IsCreateOf(o: Op, project: ProjectId, name: string) {
    o.Creating? && o.row.project == project && o.row.name == name
  }

  /** A rename that is let through, to the name of a create in flight. */
  predicate TakesName(s: State, e: Event) {
    && e.RenameBranch? && e.branch in s.rows && BranchRenamed(s, e.branch, e.name) != s
    && exists op :: op in s.ops && IsCreateOf(s.ops[op], s.rows[e.branch].project, e.name)
  }

  lemma FewerNames(s: State, t: State)
    requires NameInv(s) && forall h :: NameOf(t, h).None? || NameOf(t, h) == NameOf(s, h)
    ensures NameInv(t)
  {
    forall g, h ensures NamesApart(t, g, h) {
      assert NamesApart(s, g, h);
    }
  }

  lemma ReserveKeepsNames(s: State, op: OpId, branch: BranchId, row: Row)
    requires RefInv(s) && NameInv(s) && CanHappen(s, Reserve(op, branch, row))
    ensures NameInv(Reserved(s, op, branch, row))
  {
    var t := Reserved(s, op, branch, row);
    if t != s {
      forall h ensures h != CreateHolder(op) ==> NameOf(t, h) == NameOf(s, h) && NameOf(s, h) != Some(Called(row.project, row.name)) {
        if h.CreateHolder? && h != CreateHolder(op) {
          assert CreateOk(s, h.op);
        }
      }
      forall g, h ensures NamesApart(t, g, h) {
        assert NamesApart(s, g, h);
      }
    }
  }

  /** What a committed create was. */
  function Before(o: Op, op: OpId, h: Holder): Holder
    requires o.Creating?
  {
    if h == RowHolder(o.branch) then CreateHolder(op) else h
  }

  lemma CommitKeepsNames(s: State, op: OpId)
    requires NameInv(s) && op in s.ops && s.ops[op].Creating?
    ensures NameInv(Committed(s, op))
  {
    var t, o := Committed(s, op), s.ops[op];
    forall g, h ensures NamesApart(t, g, h) {
      assert NamesApart(s, Before(o, op, g), Before(o, op, h));
    }
  }

  /** A rename keeps names apart exactly when it does not take that of a create in flight. */
  lemma RenameKeepsNames(s: State, branch: BranchId, name: string)
    requires NameInv(s) && branch in s.rows
    ensures NameInv(BranchRenamed(s, branch, name)) <==> !TakesName(s, RenameBranch(branch, name))
  {
    var t, mine := BranchRenamed(s, branch, name), RowHolder(branch);
    if t != s {
      forall h ensures h != mine ==> NameOf(t, h) == NameOf(s, h) {}
      assert NameOf(t, mine) == Some(Called(s.rows[branch].project, name));
      if TakesName(s, RenameBranch(branch, name)) {
        var op :| op in s.ops && IsCreateOf(s.ops[op], s.rows[branch].project, name);
        assert !NamesApart(t, mine, CreateHolder(op));
      } else {
        forall h ensures h != mine ==> NameOf(s, h) != NameOf(t, mine) {
          if h.CreateHolder? && h.op in s.ops {
            assert !IsCreateOf(s.ops[h.op], s.rows[branch].project, name);
          }
        }
        forall g, h ensures NamesApart(t, g, h) {
          assert NamesApart(s, g, h);
        }
      }
    }
  }

  lemma StepKeepsNames(s: State, e: Event)
    requires RefInv(s) && NameInv(s) && CanHappen(s, e)
    ensures NameInv(Stepped(s, e)) <==> !TakesName(s, e)
  {
    match e
    case Reserve(op, branch, row) => ReserveKeepsNames(s, op, branch, row);
    case Commit(op) => CommitKeepsNames(s, op);
    case RenameBranch(branch, name) => RenameKeepsNames(s, branch, name);
    case _ => OtherStep(s, e);
  }

  lemma OtherStep(s: State, e: Event)
    requires NameInv(s) && CanHappen(s, e) && !e.Reserve? && !e.Commit? && !e.RenameBranch?
    ensures NameInv(Stepped(s, e))
  {
    var t := Stepped(s, e);
    forall h ensures NameOf(t, h).None? || NameOf(t, h) == NameOf(s, h) {
      OtherName(s, e, h);
    }
    FewerNames(s, t);
  }

  lemma OtherName(s: State, e: Event, h: Holder)
    requires CanHappen(s, e) && !e.Reserve? && !e.Commit? && !e.RenameBranch?
    ensures NameOf(Stepped(s, e), h).None? || NameOf(Stepped(s, e), h) == NameOf(s, h)
  {
    match e
    case Abandon(op) =>
    case Allocate(op, ids, range) => AllocateNames(s, op, ids, range, h);
    case Write(op) =>
    case Rollback(op, _) =>
    case EndDeploy(op, end) => EndNames(s, op, end, h);
    case StartDeploy(op, branch, group, listen, named, local, range) => StartNames(s, op, branch, group, listen, named, local, range, h);
    case _ =>
  }

  lemma AllocateNames(s: State, op: OpId, ids: seq<Svc>, r: Range, h: Holder)
    requires op in s.ops && s.ops[op].Creating?
    ensures NameOf(LanesAllocated(s, op, ids, r), h).None? || NameOf(LanesAllocated(s, op, ids, r), h) == NameOf(s, h)
  {
  }

  lemma EndNames(s: State, op: OpId, end: End, h: Holder)
    requires op in s.ops && s.ops[op].Deploying?
    ensures NameOf(DeployEnded(s, op, end), h) == NameOf(s, h)
  {
  }

  lemma StartNames(s: State, op: OpId, branch: BranchId, group: Group, listen: Port, named: Option<Port>, local: bool, r: Range, h: Holder)
    requires op !in s.ops
    ensures NameOf(DeployStarted(s, op, branch, group, listen, named, local, r), h) == NameOf(s, h)
  {
  }

  lemma {:induction false} NamesAlwaysHold(run: seq<Event>, at: seq<State>, n: nat)
    requires IsRun(run, at) && n <= |run| && forall i :: 0 <= i < n ==> !TakesName(at[i], run[i])
    ensures NameInv(at[n])
  {
    if n > 0 {
      NamesAlwaysHold(run, at, n - 1);
      RefsAlwaysHold(run, at, n - 1);
      StepKeepsNames(at[n - 1], run[n - 1]);
    } else {
      forall g, h ensures NamesApart(at[0], g, h) {}
    }
  }

  /** Names stay apart throughout a run exactly when no rename takes the name of a create in flight. */
  lemma {:induction false} NamesAreUnique(run: seq<Event>, at: seq<State>, n: nat)
    requires IsRun(run, at) && n <= |run|
    ensures (forall i :: 0 <= i <= n ==> NameInv(at[i])) <==> (forall i :: 0 <= i < n ==> !TakesName(at[i], run[i]))
  {
    if forall i :: 0 <= i < n ==> !TakesName(at[i], run[i]) {
      forall i | 0 <= i <= n ensures NameInv(at[i]) {
        NamesAlwaysHold(run, at, i);
      }
    } else if exists i :: 0 <= i < n - 1 && TakesName(at[i], run[i]) {
      NamesAreUnique(run, at, n - 1);
    } else {
      NamesAlwaysHold(run, at, n - 1);
      RefsAlwaysHold(run, at, n - 1);
      StepKeepsNames(at[n - 1], run[n - 1]);
      assert !NameInv(at[n]);
    }
  }

  /** The run that ends with two branches of one project under one name: beside the default branch `d`, `b`
      is renamed to what `c` is being created as. */
  lemma TwoBranchesOneName(d: BranchId, b: BranchId, c: BranchId, rowD: Row, rowB: Row, rowC: Row) returns (s: State)
    requires d != b && b != c && c != d && rowD.project == rowB.project == rowC.project && rowD.isDefault && !rowB.isDefault
    requires rowD.name != rowB.name && rowB.name != rowC.name && rowC.name != rowD.name
    requires rowD.ref != rowB.ref && rowB.ref != rowC.ref && rowC.ref != rowD.ref
    ensures Reachable(s) && Quiet(s) && b in s.rows && c in s.rows
    ensures NameOf(s, RowHolder(b)) == NameOf(s, RowHolder(c)) == Some(Called(rowC.project, rowC.name))
  {
    FromTheStart();
    MakeBranch(Empty(), 0, d, rowD);
    var s0 := WithBranch(Empty(), d, rowD);
    MakeBranch(s0, 0, b, rowB);
    s := RenamedMeanwhile(WithBranch(s0, b, rowB), b, c, rowC);
  }

  lemma RenamedMeanwhile(s1: State, b: BranchId, c: BranchId, rowC: Row) returns (s: State)
    requires Reachable(s1) && Quiet(s1) && b in s1.rows && c !in s1.rows && b != c && !RefTaken(s1, rowC, c)
    requires !s1.rows[b].isDefault && s1.rows[b].project == rowC.project
    ensures Reachable(s) && Quiet(s) && b in s.rows && c in s.rows
    ensures NameOf(s, RowHolder(b)) == NameOf(s, RowHolder(c)) == Some(Called(rowC.project, rowC.name))
  {
    ThenReserve(s1, 1, c, rowC);
    var s2 := s1.(ops := map[1 := Creating(c, rowC, map[], false)], branchReservations := map[rowC.ref := c]);
    assert Reserved(s1, 1, c, rowC) == s2;
    ThenRename(s2, b, rowC.name);
    var s3 := s2.(rows := s2.rows[b := s2.rows[b].(name := rowC.name)]);
    assert BranchRenamed(s2, b, rowC.name) == s3;
    CommitLast(s3, 1);
    s := s3.(rows := s3.rows[c := rowC], lanes := s3.lanes[c := map[]], ops := map[], branchReservations := map[]);
  }
}

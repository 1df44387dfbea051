/** Two runs in which the re-driving operations of module Redrive fall short: an add that comes out on a
    branch under deletion, and a create whose redeploy is misled by a rename (src/engine.ts:834-836,
    1020-1051). */
module RedriveWitnesses {
  import opened OpLock
  import opened OpContexts
  import opened Redrive

  ghost predicate Reachable(w: World) {
    exists run, at :: IsRun(run, at) && at[|run|] == w
  }

  lemma OneMoreStep(run: seq<Step>, at: seq<World>, e: Step)
    requires IsRun(run, at) && CanStep(at[|run|], e)
    ensures IsRun(run + [e], at + [StepOf(at[|run|], e)])
  {
    var n := StepOf(at[|run|], e);
    var run', at' := run + [e], at + [n];
    forall i | 0 <= i < |run'| ensures CanStep(at'[i], run'[i]) && at'[i + 1] == StepOf(at'[i], run'[i]) {
      if i < |run| {
        assert run'[i] == run[i] && at'[i] == at[i] && at'[i + 1] == at[i + 1];
      }
    }
  }

  lemma Reach(w: World, e: Step)
    requires Reachable(w) && CanStep(w, e)
    ensures Reachable(StepOf(w, e))
  {
    var run, at :| IsRun(run, at) && at[|run|] == w;
    OneMoreStep(run, at, e);
    var run', at' := run + [e], at + [StepOf(w, e)];
    assert at'[|run'|] == StepOf(w, e);
  }

  /** Contexts that arrived and did nothing yet. */
  function Arrived(n: nat): Sys {
    Sys(Lock([], map[]), [], seq(n, _ => Fresh), [])
  }

  lemma {:induction false} ReachArrived(rows: Rows, n: nat)
    requires RowsOk(rows)
    ensures Reachable(World(Arrived(n), rows, map[], {}))
  {
    if n == 0 {
      var run: seq<Step>, at := [], [World(Arrived(0), rows, map[], {})];
      assert Arrived(0) == Empty;
      assert IsRun(run, at) && at[|run|] == World(Arrived(0), rows, map[], {});
    } else {
      ReachArrived(rows, n - 1);
      var w := World(Arrived(n - 1), rows, map[], {});
      Reach(w, Outside(Arrive));
      assert Arrived(n - 1).ctxs + [Fresh] == Arrived(n).ctxs;
    }
  }

  /** The first context of several at work, once it owns `need`. */
  function FirstOwns(n: nat, need: seq<Key>): Sys
    requires n > 0
  {
    Sys(Lock([Ticket(need, {}, Running)], Extended(map[], need, 0)), [0], Arrived(n).ctxs[0 := Fresh.(stack := [0])], [])
  }

  lemma FirstAsks(n: nat, order: seq<Key>)
    requires n > 0 && order != []
    ensures Works(Arrived(n), 0) && Act(Arrived(n), Action.Acquire(0, order)) == Waiting(Arrived(n), 0, Need(order, {}))
  {
    EmptyStackHoldsNothing(Arrived(n), 0);
    assert order[0] in order && order[0] in Need(order, {});
  }

  lemma FirstIsGranted(n: nat, need: seq<Key>)
    requires n > 0
    ensures var s := Waiting(Arrived(n), 0, need); CanAct(s, Grant(0)) && Act(s, Grant(0)) == FirstOwns(n, need)
    ensures Held(FirstOwns(n, need), 0) == KeysIn(need)
  {
    var s := Waiting(Arrived(n), 0, need);
    assert Ahead(map[], need) == {};
    assert s.lock.tickets == [Ticket(need, {}, Queued)];
    assert s.ctxs[0].stack + [0] == [0];
    var g := Act(s, Grant(0));
    assert g.lock.tickets == FirstOwns(n, need).lock.tickets;
    assert g.ctxs == FirstOwns(n, need).ctxs;
    OneTicketHolds(FirstOwns(n, need), 0, 0);
  }

  /** The world of a first driver, with others that did nothing yet. */
  function Alone(s: Sys, rows: Rows, d: Driver): World {
    World(s, rows, map[0 := d], {})
  }

  /** That driver as its operation was first asked for. */
  function Begun(rows: Rows, task: Task): Driver {
    Driver(task, Needed(rows, task), 1, Asking, rows, 0)
  }

  lemma ReachAsking(rows: Rows, task: Task, n: nat)
    requires RowsOk(rows) && Known(rows, task) && n > 0
    ensures Reachable(Alone(Arrived(n), rows, Begun(rows, task)))
  {
    ReachArrived(rows, n);
    var w := World(Arrived(n), rows, map[], {});
    Reach(w, Undertake(0, task));
    assert StepOf(w, Undertake(0, task)) == Alone(Arrived(n), rows, Begun(rows, task));
  }

  lemma ReachAcquiring(rows: Rows, d: Driver, n: nat, order: seq<Key>)
    requires n > 0 && Reachable(Alone(Arrived(n), rows, d)) && d.phase.Asking? && order != [] && KeysIn(order) == d.keys
    ensures Reachable(Alone(Waiting(Arrived(n), 0, Need(order, {})), rows, d.(phase := Acquiring)))
  {
    var w := Alone(Arrived(n), rows, d);
    FirstAsks(n, order);
    Reach(w, Ask(0, order));
    assert StepOf(w, Ask(0, order)) == Alone(Waiting(Arrived(n), 0, Need(order, {})), rows, d.(phase := Acquiring));
  }

  lemma ReachGranted(rows: Rows, d: Driver, n: nat, need: seq<Key>)
    requires n > 0 && Reachable(Alone(Waiting(Arrived(n), 0, need), rows, d))
    ensures Reachable(Alone(FirstOwns(n, need), rows, d))
  {
    var w := Alone(Waiting(Arrived(n), 0, need), rows, d);
    FirstIsGranted(n, need);
    Reach(w, Outside(Grant(0)));
    assert StepOf(w, Outside(Grant(0))) == Alone(FirstOwns(n, need), rows, d);
  }

  lemma ReachChecked(rows: Rows, d: Driver, n: nat, need: seq<Key>)
    requires n > 0 && Reachable(Alone(FirstOwns(n, need), rows, d)) && d.phase.Acquiring? && Needed(rows, d.task) <= d.keys
    ensures Reachable(Alone(FirstOwns(n, need), rows, d.(phase := InBody, saw := rows)))
  {
    var w := Alone(FirstOwns(n, need), rows, d);
    Reach(w, Check(0));
    assert StepOf(w, Check(0)) == Alone(FirstOwns(n, need), rows, d.(phase := InBody, saw := rows));
  }

  /** A driver runs its body while the others did nothing yet. */
  lemma ReachBody(rows: Rows, task: Task, n: nat) returns (need: seq<Key>)
    requires RowsOk(rows) && Known(rows, task) && n > 0 && Needed(rows, task) != {}
    ensures KeysIn(need) == Needed(rows, task)
    ensures Reachable(Alone(FirstOwns(n, need), rows, Begun(rows, task).(phase := InBody)))
  {
    var order := Listed(Needed(rows, task));
    need := Need(order, {});
    NeedOfNothingHeld(order);
    assert KeysIn([]) == {};
    var d := Begun(rows, task);
    ReachAsking(rows, task, n);
    ReachAcquiring(rows, d, n, order);
    ReachGranted(rows, d.(phase := Acquiring), n, need);
    ReachChecked(rows, d.(phase := Acquiring), n, need);
  }

  // ---- an add that comes out on a branch under deletion -----------------------------------------

  function OneBranch(p: ProjectId, b: BranchId, name: Name, services: set<Svc>): Rows {
    Rows(map[b := Branch(p, name, false, services)], {b}, {p})
  }

  /** The delete in its body, an add having been asked for under `other` while the branch was called
      `first`; it is called `now` and has `services`. */
  function UnderDelete(p: ProjectId, b: BranchId, first: Name, other: Name, need: seq<Key>, now: Name, services: set<Svc>): World {
    World(FirstOwns(2, need), OneBranch(p, b, now, services),
          map[0 := Driver(Destroy(b), {BranchKey(b)}, 1, InBody, OneBranch(p, b, first, {}), 0)], {AddRequest(p, other, None)})
  }

  lemma AddIsAskedFor(p: ProjectId, b: BranchId, first: Name, other: Name, need: seq<Key>)
    requires first != other && Reachable(Alone(FirstOwns(2, need), OneBranch(p, b, first, {}), Begun(OneBranch(p, b, first, {}), Destroy(b)).(phase := InBody)))
    ensures Reachable(UnderDelete(p, b, first, other, need, first, {}))
  {
    var rows := OneBranch(p, b, first, {});
    var w, r := Alone(FirstOwns(2, need), rows, Begun(rows, Destroy(b)).(phase := InBody)), AddRequest(p, other, None);
    assert Needed(OneBranch(p, b, first, {}), Destroy(b)) == {BranchKey(b)};
    assert {} + {r} == {r};
    Reach(w, AskForAdd(r));
  }

  lemma BranchIsRenamed(p: ProjectId, b: BranchId, first: Name, other: Name, need: seq<Key>)
    requires first != other && Reachable(UnderDelete(p, b, first, other, need, first, {}))
    ensures Reachable(UnderDelete(p, b, first, other, need, other, {}))
  {
    var w, e := UnderDelete(p, b, first, other, need, first, {}), RenameBranch(b, other);
    assert Edited(w.rows, e) == OneBranch(p, b, other, {});
    Reach(w, Change(1, e));
    assert StepOf(w, Change(1, e)) == UnderDelete(p, b, first, other, need, other, {});
  }

  lemma AddComesOut(p: ProjectId, b: BranchId, first: Name, other: Name, need: seq<Key>, s: Svc)
    requires s != WHOLE && Reachable(UnderDelete(p, b, first, other, need, other, {}))
    ensures Reachable(UnderDelete(p, b, first, other, need, other, {s}))
  {
    var w, e := UnderDelete(p, b, first, other, need, other, {}), StrayAdd(AddRequest(p, other, None), b, s);
    assert {} + {s} == {s};
    assert Edited(w.rows, AddService(b, s)) == OneBranch(p, b, other, {s});
    Reach(w, e);
    assert StepOf(w, e) == UnderDelete(p, b, first, other, need, other, {s});
  }

  /** A delete is in its body, and a service comes to the branch without its key: the delete needs a key
      that it does not hold and nobody else does, so whoever asks for it, a wake of that service say, gets it
      at once. */
  lemma KeylessAddOvertakes(p: ProjectId, b: BranchId, s: Svc, first: Name, other: Name) returns (w: World)
    requires Plain(b) && s != WHOLE && first != other
    ensures Reachable(w) && !BodiesHold(w) && IsIn(w, 0, InBody) && w.drivers[0].task == Destroy(b)
    ensures ServiceKey(b, s) in Needed(w.rows, Destroy(b)) && !Busy(w.sys, [ServiceKey(b, s)])
  {
    var rows := OneBranch(p, b, first, {});
    assert ServiceKeys(b, {}) == {} && Needed(rows, Destroy(b)) == {BranchKey(b)};
    var need := ReachBody(rows, Destroy(b), 2);
    AddIsAskedFor(p, b, first, other, need);
    BranchIsRenamed(p, b, first, other, need);
    AddComesOut(p, b, first, other, need, s);
    w := UnderDelete(p, b, first, other, need, other, {s});
    KeyIsFree(p, b, s, first, other, need);
  }

  lemma KeyIsFree(p: ProjectId, b: BranchId, s: Svc, first: Name, other: Name, need: seq<Key>)
    requires Plain(b) && s != WHOLE && KeysIn(need) == {BranchKey(b)}
    ensures var w := UnderDelete(p, b, first, other, need, other, {s});
            !BodiesHold(w) && ServiceKey(b, s) in Needed(w.rows, Destroy(b)) && !Busy(w.sys, [ServiceKey(b, s)])
  {
    var w := UnderDelete(p, b, first, other, need, other, {s});
    if ServiceKey(b, s) == BranchKey(b) {
      MarkSplits(b, s, b, WHOLE);
    }
    assert s in Services(w.rows, b) && ServiceKey(b, s) in ServiceKeys(b, Services(w.rows, b));
    assert ServiceKey(b, s) in Needed(w.rows, w.drivers[0].task) && ServiceKey(b, s) !in w.drivers[0].keys;
    assert ServiceKey(b, s) in need ==> ServiceKey(b, s) in KeysIn(need);
  }

  // ---- a create that is misled -----------------------------------------------------------------

  /** Two contexts wait for each other: `c` with ticket `u` for `v`, with which `d` waits for `t`, which only
      `c` could release. */
  ghost predicate Crossed(s: Sys, c: CtxId, d: CtxId, t: TicketId, u: TicketId, v: TicketId) {
    && c != d && Live(s, c) && Live(s, d)
    && 0 <= t < |s.lock.tickets| && 0 <= u < |s.lock.tickets| && 0 <= v < |s.lock.tickets|
    && s.lock.tickets[t].phase.Running? && s.lock.tickets[u].phase.Queued? && s.lock.tickets[v].phase.Queued?
    && s.ctxs[c].mode == AwaitingKeys(u) && v in s.lock.tickets[u].waits
    && s.ctxs[d].mode == AwaitingKeys(v) && t in s.lock.tickets[v].waits
    && forall e :: Live(s, e) && e != c ==> t !in s.ctxs[e].stack
  }

  lemma CrossedStays(s: Sys, a: Action, c: CtxId, d: CtxId, t: TicketId, u: TicketId, v: TicketId)
    requires Crossed(s, c, d, t, u, v) && CanAct(s, a)
    ensures Crossed(Act(s, a), c, d, t, u, v)
  {
  }

  ghost predicate IsPath(run: seq<Step>, at: seq<World>) {
    |at| == |run| + 1 && forall i :: 0 <= i < |run| ==> CanStep(at[i], run[i]) && at[i + 1] == StepOf(at[i], run[i])
  }

  /** Neither of them ever goes on, whatever anybody does. */
  lemma {:induction false} NeitherGoesOn(run: seq<Step>, at: seq<World>, n: nat, c: CtxId, d: CtxId, t: TicketId, u: TicketId, v: TicketId)
    requires IsPath(run, at) && n <= |run| && Crossed(at[0].sys, c, d, t, u, v)
    ensures Crossed(at[n].sys, c, d, t, u, v)
  {
    if n > 0 {
      NeitherGoesOn(run, at, n - 1, c, d, t, u, v);
      var w, e := at[n - 1], run[n - 1];
      LockAction(w, e);
      if OnLock(w, e).Some? {
        CrossedStays(w.sys, OnLock(w, e).value, c, d, t, u, v);
      }
    }
  }

  /** Those in the run: a project with its default branch and another, a create of a clone from the default
      branch, which carries `group`, and the names. */
  datatype Cast = Cast(p: ProjectId, main: BranchId, x: BranchId, clone: BranchId, group: Svc, svc: Svc,
                       mainName: Name, xName: Name, feat: Name, aside: Name)

  predicate CastOk(a: Cast) {
    && Plain(a.main) && Plain(a.x) && Plain(a.clone) && a.main != a.x && a.main != a.clone && a.x != a.clone && a.group != WHOLE
    && a.feat != a.mainName && a.feat != a.xName && a.feat != a.aside && a.aside != a.mainName && a.aside != a.xName
  }

  function RowsBefore(a: Cast): Rows {
    Rows(map[a.main := Branch(a.p, a.mainName, true, {a.group}), a.x := Branch(a.p, a.xName, false, {})], {a.main, a.x}, {a.p})
  }

  /** The rows once the clone's is written, with the names the clone and the other branch have. */
  function RowsWith(a: Cast, cloneName: Name, xName: Name): Rows {
    Rows(map[a.main := Branch(a.p, a.mainName, true, {a.group}), a.x := Branch(a.p, xName, false, {}),
             a.clone := Branch(a.p, cloneName, false, {a.group})], {a.main, a.x, a.clone}, {a.p})
  }

  function TheCreate(a: Cast): Task {
    Create(a.p, a.main, a.clone, a.feat, false)
  }

  function CreateDriver(a: Cast, edits: nat): Driver {
    Begun(RowsBefore(a), TheCreate(a)).(phase := InBody, edits := edits)
  }

  function CloneRow(a: Cast): RowEdit {
    AddBranch(a.p, a.clone, a.feat, Some(a.main), {a.group})
  }

  lemma CloneRowFits(a: Cast, need: seq<Key>)
    requires CastOk(a) && KeysIn(need) == Needed(RowsBefore(a), TheCreate(a))
    ensures EditKeys(CloneRow(a)) <= KeysIn(need) && OwnEdit(RowsBefore(a), TheCreate(a), CloneRow(a))
    ensures EditAllowed(RowsBefore(a), CloneRow(a)) && Edited(RowsBefore(a), CloneRow(a)) == RowsWith(a, a.feat, a.xName)
  {
  }

  /** The create has written its row. */
  lemma CloneIsWritten(a: Cast, need: seq<Key>)
    requires CastOk(a) && KeysIn(need) == Needed(RowsBefore(a), TheCreate(a))
    requires Reachable(Alone(FirstOwns(3, need), RowsBefore(a), CreateDriver(a, 0)))
    ensures Reachable(Alone(FirstOwns(3, need), RowsWith(a, a.feat, a.xName), CreateDriver(a, 1)))
  {
    FirstIsGranted(3, need);
    CloneRowFits(a, need);
    RowIsWritten(FirstOwns(3, need), RowsBefore(a), CreateDriver(a, 0), CloneRow(a));
    assert CreateDriver(a, 0).(edits := 1) == CreateDriver(a, 1);
  }

  lemma RowIsWritten(s: Sys, rows: Rows, d: Driver, e: RowEdit)
    requires Reachable(Alone(s, rows, d)) && Live(s, 0) && d.phase.InBody? && d.edits == 0
    requires EditAllowed(rows, e) && OwnEdit(rows, d.task, e) && EditKeys(e) <= Held(s, 0)
    ensures Reachable(Alone(s, Edited(rows, e), d.(edits := 1)))
  {
    var w := Alone(s, rows, d);
    Reach(w, Change(0, e));
    assert StepOf(w, Change(0, e)) == Alone(s, Edited(rows, e), d.(edits := 1));
  }

  function RenameDriver(a: Cast, phase: Stage): Driver {
    Begun(RowsWith(a, a.feat, a.xName), Rename(a.p, a.svc)).(phase := phase)
  }

  /** Beside the create, the rename of a service at some phase. */
  function Both(s: Sys, a: Cast, cloneName: Name, xName: Name, phase: Stage): World {
    World(s, RowsWith(a, cloneName, xName), map[0 := CreateDriver(a, 1), 1 := RenameDriver(a, phase)], {})
  }

  lemma RenameBegins(a: Cast, need: seq<Key>)
    requires CastOk(a) && Reachable(Alone(FirstOwns(3, need), RowsWith(a, a.feat, a.xName), CreateDriver(a, 1)))
    ensures Reachable(Both(FirstOwns(3, need), a, a.feat, a.xName, Asking))
  {
    var w, e := Alone(FirstOwns(3, need), RowsWith(a, a.feat, a.xName), CreateDriver(a, 1)), Undertake(1, Rename(a.p, a.svc));
    Reach(w, e);
    assert StepOf(w, e) == Both(FirstOwns(3, need), a, a.feat, a.xName, Asking);
  }

  /** The rename has asked for its keys and queues behind the create. */
  function RenameQueued(need: seq<Key>, other: seq<Key>): Sys {
    Waiting(FirstOwns(3, need), 1, other)
  }

  lemma RenameAsks(a: Cast, need: seq<Key>, order: seq<Key>)
    requires CastOk(a) && order != [] && KeysIn(order) == RenameDriver(a, Asking).keys
    requires Reachable(Both(FirstOwns(3, need), a, a.feat, a.xName, Asking))
    ensures Reachable(Both(RenameQueued(need, Need(order, {})), a, a.feat, a.xName, Acquiring))
  {
    ReachSecondAsks(RowsWith(a, a.feat, a.xName), CreateDriver(a, 1), RenameDriver(a, Asking), need, order);
    assert RenameDriver(a, Asking).(phase := Acquiring) == RenameDriver(a, Acquiring);
  }

  lemma ReachSecondAsks(rows: Rows, d: Driver, r: Driver, need: seq<Key>, order: seq<Key>)
    requires order != [] && KeysIn(order) == r.keys && r.phase.Asking?
    requires Reachable(World(FirstOwns(3, need), rows, map[0 := d, 1 := r], {}))
    ensures Reachable(World(RenameQueued(need, Need(order, {})), rows, map[0 := d, 1 := r.(phase := Acquiring)], {}))
  {
    var w := World(FirstOwns(3, need), rows, map[0 := d, 1 := r], {});
    SecondAsks(need, order);
    Reach(w, Ask(1, order));
    assert StepOf(w, Ask(1, order)).drivers == map[0 := d, 1 := r.(phase := Acquiring)];
  }

  lemma SecondAsks(need: seq<Key>, order: seq<Key>)
    requires order != []
    ensures var s := FirstOwns(3, need);
            Works(s, 1) && Act(s, Action.Acquire(1, order)) == RenameQueued(need, Need(order, {}))
  {
    EmptyStackHoldsNothing(FirstOwns(3, need), 1);
    assert order[0] in order && order[0] in Need(order, {});
  }

  /** Some other context renames a branch. */
  lemma Renames(w: World, c: CtxId, b: BranchId, name: Name)
    requires Reachable(w) && Live(w.sys, c) && c !in w.drivers && EditAllowed(w.rows, RenameBranch(b, name))
    ensures Reachable(w.(rows := Edited(w.rows, RenameBranch(b, name))))
  {
    Reach(w, Change(c, RenameBranch(b, name)));
  }

  lemma CloneIsRenamed(s: Sys, a: Cast)
    requires CastOk(a) && Live(s, 2) && Reachable(Both(s, a, a.feat, a.xName, Acquiring))
    ensures Reachable(Both(s, a, a.aside, a.xName, Acquiring))
  {
    Renames(Both(s, a, a.feat, a.xName, Acquiring), 2, a.clone, a.aside);
    assert Edited(RowsWith(a, a.feat, a.xName), RenameBranch(a.clone, a.aside)) == RowsWith(a, a.aside, a.xName);
  }

  lemma NameIsTaken(s: Sys, a: Cast)
    requires CastOk(a) && Live(s, 2) && Reachable(Both(s, a, a.aside, a.xName, Acquiring))
    ensures Reachable(Both(s, a, a.aside, a.feat, Acquiring))
  {
    Renames(Both(s, a, a.aside, a.xName, Acquiring), 2, a.x, a.feat);
    assert Edited(RowsWith(a, a.aside, a.xName), RenameBranch(a.x, a.feat)) == RowsWith(a, a.aside, a.feat);
  }

  lemma CreateIsMisled(a: Cast, need: seq<Key>, other: seq<Key>)
    requires CastOk(a) && Reachable(Both(RenameQueued(need, other), a, a.aside, a.feat, Acquiring))
    requires KeysIn(need) == Needed(RowsBefore(a), TheCreate(a))
    ensures var w, e := Both(RenameQueued(need, other), a, a.aside, a.feat, Acquiring), Redeploy(0, a.group, Some(a.x));
            CanStep(w, e) && Misled(w, e)
  {
    var w := Both(RenameQueued(need, other), a, a.aside, a.feat, Acquiring);
    assert Called(w.rows, a.p, a.feat, a.x);
    assert Works(w.sys, 0) && w.sys.ctxs[0].stack == [0];
  }

  lemma JoinsChain(ops: map<Key, OpEntry>, need: seq<Key>, t: TicketId, k: Key)
    requires k in need
    ensures t in Chain(Extended(ops, need, t), k)
  {
    assert (Chain(ops, k) + [t])[|Chain(ops, k)|] == t;
  }

  lemma WaitsForChain(ops: map<Key, OpEntry>, need: seq<Key>, t: TicketId, k: Key)
    requires k in need && t in Chain(ops, k)
    ensures t in Ahead(ops, need)
  {
  }

  lemma SecondWaits(need: seq<Key>, other: seq<Key>, k: Key)
    requires k in need && k in other
    ensures var s := RenameQueued(need, other);
            && |s.lock.tickets| == 2 && s.lock.tickets[0].phase.Running? && s.lock.tickets[1].phase.Queued?
            && 0 in s.lock.tickets[1].waits && s.ctxs == [Fresh.(stack := [0]), Fresh.(mode := AwaitingKeys(1)), Fresh]
            && s.lock.ops == Extended(FirstOwns(3, need).lock.ops, other, 1)
  {
    JoinsChain(map[], need, 0, k);
    WaitsForChain(FirstOwns(3, need).lock.ops, other, 0, k);
  }

  /** What the create's strange redeploy asks for is in the rename's ticket, and what that waits for is in
      the create's. */
  lemma WaitsCross(need: seq<Key>, other: seq<Key>, extra: seq<Key>, k: Key, x: Key)
    requires k in need && k in other && x in other && x in extra
    ensures Crossed(Waiting(RenameQueued(need, other), 0, extra), 0, 1, 0, 2, 1)
  {
    SecondWaits(need, other, k);
    var s := RenameQueued(need, other);
    JoinsChain(FirstOwns(3, need).lock.ops, other, 1, x);
    WaitsForChain(s.lock.ops, extra, 1, x);
    ThirdWaits(s, extra);
  }

  lemma ThirdWaits(s: Sys, extra: seq<Key>)
    requires |s.lock.tickets| == 2 && s.lock.tickets[0].phase.Running? && s.lock.tickets[1].phase.Queued?
    requires 0 in s.lock.tickets[1].waits && s.ctxs == [Fresh.(stack := [0]), Fresh.(mode := AwaitingKeys(1)), Fresh]
    requires 1 in Ahead(s.lock.ops, extra)
    ensures Crossed(Waiting(s, 0, extra), 0, 1, 0, 2, 1)
  {
    var n := Waiting(s, 0, extra);
    assert n.lock.tickets[2] == Ticket(extra, Ahead(s.lock.ops, extra), Queued);
  }

  lemma StrangeKeyIsAskedFor(a: Cast, s: Sys, need: seq<Key>)
    requires CastOk(a) && Live(s, 0) && Held(s, 0) == KeysIn(need) && KeysIn(need) == Needed(RowsBefore(a), TheCreate(a))
    ensures BranchKey(a.x) in Need(DeployOrder(a.x, a.group), Held(s, 0))
  {
    if BranchKey(a.x) in KeysIn(need) {
      CreateNamesTwo(RowsBefore(a), TheCreate(a), a.x);
    }
    assert DeployOrder(a.x, a.group)[0] == BranchKey(a.x);
  }

  lemma RenameNames(a: Cast, order: seq<Key>)
    requires CastOk(a) && KeysIn(order) == RenameDriver(a, Asking).keys
    ensures order != [] && BranchKey(a.main) in Need(order, {}) && BranchKey(a.x) in Need(order, {})
  {
    var rows := RowsWith(a, a.feat, a.xName);
    assert a.main in InProject(rows, a.p) && a.x in InProject(rows, a.p);
    assert BranchKey(a.main) in CarrierKeys(a.main, a.svc) && BranchKey(a.x) in CarrierKeys(a.x, a.svc);
    assert BranchKey(a.main) in KeysIn(order) && BranchKey(a.x) in KeysIn(order);
  }

  lemma RedeployAsks(w: World, c: CtxId, svc: Svc, b: BranchId)
    requires CanStep(w, Redeploy(c, svc, Some(b))) && Need(DeployOrder(b, svc), Held(w.sys, c)) != []
    ensures StepOf(w, Redeploy(c, svc, Some(b))).sys == Waiting(w.sys, c, Need(DeployOrder(b, svc), Held(w.sys, c)))
  {
  }

  lemma MisledWaits(a: Cast, w: World, need: seq<Key>, other: seq<Key>)
    requires CastOk(a) && w == Both(RenameQueued(need, other), a, a.aside, a.feat, Acquiring)
    requires KeysIn(need) == Needed(RowsBefore(a), TheCreate(a))
    requires BranchKey(a.main) in other && BranchKey(a.x) in other
    requires CanStep(w, Redeploy(0, a.group, Some(a.x)))
    ensures Crossed(StepOf(w, Redeploy(0, a.group, Some(a.x))).sys, 0, 1, 0, 2, 1)
  {
    var s := w.sys;
    OneTicketHolds(s, 0, 0);
    StrangeKeyIsAskedFor(a, s, need);
    assert BranchKey(a.main) in KeysIn(need);
    RedeployAsks(w, 0, a.group, a.x);
    WaitsCross(need, other, Need(DeployOrder(a.x, a.group), Held(s, 0)), BranchKey(a.main), BranchKey(a.x));
  }

  /** The clone has been renamed and the other branch has its name, with the rename of a service queued. */
  lemma ReachTaken(a: Cast) returns (need: seq<Key>, other: seq<Key>)
    requires CastOk(a)
    ensures Reachable(Both(RenameQueued(need, other), a, a.aside, a.feat, Acquiring))
    ensures KeysIn(need) == Needed(RowsBefore(a), TheCreate(a)) && BranchKey(a.main) in other && BranchKey(a.x) in other
  {
    need := ReachBody(RowsBefore(a), TheCreate(a), 3);
    CloneIsWritten(a, need);
    RenameBegins(a, need);
    var order := Listed(RenameDriver(a, Asking).keys);
    RenameNames(a, order);
    other := Need(order, {});
    RenameAsks(a, need, order);
    CloneIsRenamed(RenameQueued(need, other), a);
    NameIsTaken(RenameQueued(need, other), a);
  }

  /** While a create runs its redeploys its clone is renamed and another branch takes the name it was asked
      for, with the rename of a service queued. The next redeploy comes out at that branch, and asks for its
      key behind the rename, which waits for the create: neither goes on again, whatever anybody does. */
  lemma MisledCreateBlocks(a: Cast) returns (w: World)
    requires CastOk(a)
    ensures Reachable(w)
    ensures IsIn(w, 0, InBody) && w.drivers[0].task == TheCreate(a)
    ensures IsIn(w, 1, Acquiring) && w.drivers[1].task == Rename(a.p, a.svc)
    ensures forall run: seq<Step>, at: seq<World> :: IsPath(run, at) && at[0] == w ==> Crossed(at[|run|].sys, 0, 1, 0, 2, 1)
  {
    var need, other := ReachTaken(a);
    CreateIsMisled(a, need, other);
    var w0, e := Both(RenameQueued(need, other), a, a.aside, a.feat, Acquiring), Redeploy(0, a.group, Some(a.x));
    Reach(w0, e);
    w := StepOf(w0, e);
    MisledWaits(a, w0, need, other);
    forall run: seq<Step>, at: seq<World> | IsPath(run, at) && at[0] == w ensures Crossed(at[|run|].sys, 0, 1, 0, 2, 1) {
      NeitherGoesOn(run, at, |run|, 0, 1, 0, 2, 1);
    }
  }
}

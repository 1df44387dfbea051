/** The bounded re-drive the engine runs around its multi-key operations (src/engine.ts:729-749, 2618-2634,
    3030-3071, 3091-3141, 4108-4123): the key set is recomputed under the lock, and when it has outgrown what was
    acquired everything is released and acquired again over the union.

    The operations that do so run here as contexts of module OpContexts, beside any others, over the rows
    their key sets are computed from. */
module Redrive {
  import opened OpLock
  import opened OpContexts

  type BranchId = string
  type ProjectId = string
  type Svc = string

  datatype Option<T> = None | Some(value: T)

  // ---- rows and the keys that go with them -----------------------------------------------------

  type Name = string

  datatype Branch = Branch(project: ProjectId, name: Name, isDefault: bool, services: set<Svc>)

  /** The rows, with the branch and project ids there ever were. */
  datatype Rows = Rows(branches: map<BranchId, Branch>, ids: set<BranchId>, projects: set<ProjectId>)

  const MARK: char := ':'
  const WHOLE: Svc := "*branch"

  /** Branch ids are UUIDs. */
  predicate Plain(b: BranchId) {
    MARK !in b
  }

  predicate RowsOk(rows: Rows) {
    && rows.branches.Keys <= rows.ids && (forall b :: b in rows.ids ==> Plain(b))
    && forall b :: b in rows.branches ==> rows.branches[b].project in rows.projects && WHOLE !in rows.branches[b].services
  }

  function ProjectKey(p: ProjectId): Key {
    p + ":*project"
  }

  function BranchKey(b: BranchId): Key {
    ServiceKey(b, WHOLE)
  }

  function ServiceKey(b: BranchId, s: Svc): Key {
    b + [MARK] + s
  }

  function Services(rows: Rows, b: BranchId): set<Svc> {
    if b in rows.branches then rows.branches[b].services else {}
  }

  function InProject(rows: Rows, p: ProjectId): set<BranchId> {
    set b | b in rows.branches && rows.branches[b].project == p
  }

  predicate Called(rows: Rows, p: ProjectId, name: Name, b: BranchId) {
    b in rows.branches && rows.branches[b].project == p && rows.branches[b].name == name
  }

  /** What `getBranchByName` answers: a branch of that name, if the project has one. */
  predicate Resolves(rows: Rows, p: ProjectId, name: Name, found: Option<BranchId>) {
    if found.Some? then Called(rows, p, name, found.value) else forall b :: b in rows.branches ==> !Called(rows, p, name, b)
  }

  /** The keys of `services` on branch `b`. */
  function ServiceKeys(b: BranchId, services: set<Svc>): set<Key> {
    set s | s in services :: ServiceKey(b, s)
  }

  function BranchKeys(rows: Rows, b: BranchId): set<Key> {
    {BranchKey(b)} + ServiceKeys(b, Services(rows, b))
  }

  function CarrierKeys(b: BranchId, s: Svc): set<Key> {
    {BranchKey(b), ServiceKey(b, s)}
  }

  /** The operations that re-drive. A create has the name it was asked for, and may leave all services out;
      a volume removal redeploys its group on every branch of the project. */
  datatype Task =
    | Create(project: ProjectId, source: BranchId, clone: BranchId, name: Name, bare: bool)
    | Destroy(branch: BranchId)
    | DestroyProject(project: ProjectId)
    | Rename(project: ProjectId, svc: Svc)
    | RemoveVolume(project: ProjectId, svc: Svc)

  /** What a create carries over. */
  function Carried(rows: Rows, task: Task): set<Svc>
    requires task.Create?
  {
    if task.bare then {} else Services(rows, task.source)
  }

  function WideKeys(rows: Rows, p: ProjectId, s: Svc): set<Key> {
    set b, k | b in InProject(rows, p) && k in CarrierKeys(b, s) :: k
  }

  /** `createBranchKeys`, `branchKeys`, those of all branches of a project, and `renameKeys`. */
  function Needed(rows: Rows, task: Task): set<Key> {
    match task
    case Create(p, src, clone, _, _) =>
      {ProjectKey(p), BranchKey(src), BranchKey(clone)} + ServiceKeys(src, Carried(rows, task)) + ServiceKeys(clone, Carried(rows, task))
    case Destroy(b) => BranchKeys(rows, b)
    case DestroyProject(p) => {ProjectKey(p)} + set b, k | b in InProject(rows, p) && k in BranchKeys(rows, b) :: k
    case Rename(p, s) => WideKeys(rows, p, s)
    case RemoveVolume(p, s) => WideKeys(rows, p, s)
  }

  /** What an operation is about exists when it is asked for; a clone's id is minted for it. */
  predicate Known(rows: Rows, task: Task) {
    match task
    case Create(_, src, clone, _, _) => src in rows.ids && clone != src && Plain(clone)
    case Destroy(b) => b in rows.ids
    case DestroyProject(p) => p in rows.projects
    case Rename(p, _) => p in rows.projects
    case RemoveVolume(p, _) => p in rows.projects
  }

  /** How rows change. The first branch of a project comes with the project. */
  datatype RowEdit =
    | AddService(branch: BranchId, svc: Svc)
    | RemoveService(branch: BranchId, svc: Svc)
    | AddBranch(project: ProjectId, branch: BranchId, name: Name, source: Option<BranchId>, services: set<Svc>)
    | RemoveBranch(branch: BranchId)
    | RenameBranch(branch: BranchId, name: Name)

  /** A new row's name was free when its create began, but nothing looks again when the row is written. */
  predicate EditAllowed(rows: Rows, e: RowEdit) {
    match e
    case AddService(b, s) => b in rows.branches && s != WHOLE
    case RemoveService(b, _) => b in rows.branches
    case AddBranch(p, b, _, src, services) =>
      && b !in rows.ids && Plain(b) && WHOLE !in services
      && (if src.Some? then src.value in rows.branches && rows.branches[src.value].project == p else p !in rows.projects)
    case RemoveBranch(b) => b in rows.branches
    case RenameBranch(b, name) =>
      && b in rows.branches && !rows.branches[b].isDefault
      && (name != rows.branches[b].name ==> Resolves(rows, rows.branches[b].project, name, None))
  }

  function Edited(rows: Rows, e: RowEdit): Rows
    requires EditAllowed(rows, e)
  {
    match e
    case AddService(b, s) => rows.(branches := rows.branches[b := rows.branches[b].(services := rows.branches[b].services + {s})])
    case RemoveService(b, s) => rows.(branches := rows.branches[b := rows.branches[b].(services := rows.branches[b].services - {s})])
    case AddBranch(p, b, name, src, services) =>
      Rows(rows.branches[b := Branch(p, name, src.None?, services)], rows.ids + {b}, rows.projects + {p})
    case RemoveBranch(b) => rows.(branches := rows.branches - {b})
    case RenameBranch(b, name) => rows.(branches := rows.branches[b := rows.branches[b].(name := name)])
  }

  /** The keys whoever makes the change holds: an add the branch's, a removal the service's, a create the
      project's and its source's, a delete the branch's, and a rename of a branch none. */
  function EditKeys(e: RowEdit): set<Key> {
    match e
    case AddService(b, _) => {BranchKey(b)}
    case RemoveService(b, s) => {ServiceKey(b, s)}
    case AddBranch(p, _, _, src, _) => if src.Some? then {ProjectKey(p), BranchKey(src.value)} else {ProjectKey(p)}
    case RemoveBranch(b) => {BranchKey(b)}
    case RenameBranch(_, _) => {}
  }

  /** What the body of an operation changes itself. A redeploy records the group on whatever branch it came
      out at; a create that fails drops its own row again. */
  predicate OwnEdit(rows: Rows, task: Task, e: RowEdit) {
    match task
    case Create(p, src, clone, name, _) =>
      || (e.AddBranch? && e.project == p && e.branch == clone && e.name == name && e.source == Some(src))
      || (e.AddService? && (e.branch == clone || e.svc in Services(rows, src)))
      || (e.RemoveBranch? && e.branch == clone)
    case Destroy(_) => e.RemoveBranch? || e.RemoveService?
    case DestroyProject(_) => e.RemoveBranch? || e.RemoveService?
    case Rename(_, _) => false
    case RemoveVolume(_, s) => e.AddService? && e.svc == s
  }

  lemma EditKeepsRows(rows: Rows, e: RowEdit)
    requires RowsOk(rows) && EditAllowed(rows, e)
    ensures RowsOk(Edited(rows, e))
    ensures forall task :: Known(rows, task) ==> Known(Edited(rows, e), task)
  {
  }

  lemma RemovalsShrink(rows: Rows, e: RowEdit, task: Task)
    requires EditAllowed(rows, e) && (e.RemoveService? || e.RemoveBranch? || e.RenameBranch?)
    ensures Needed(Edited(rows, e), task) <= Needed(rows, task)
  {
    var after := Edited(rows, e);
    assert forall b :: Services(after, b) <= Services(rows, b);
    assert forall p :: InProject(after, p) <= InProject(rows, p);
    if task.DestroyProject? {
      forall b, k | b in InProject(after, task.project) && k in BranchKeys(after, b)
        ensures b in InProject(rows, task.project) && k in BranchKeys(rows, b)
      {
      }
    }
  }

  /** An add to a branch whose key is not in the needed set is none the operation looks at. */
  lemma AddStays(rows: Rows, b: BranchId, s: Svc, task: Task)
    requires EditAllowed(rows, AddService(b, s)) && BranchKey(b) !in Needed(rows, task)
    ensures Needed(Edited(rows, AddService(b, s)), task) <= Needed(rows, task)
  {
    var after := Edited(rows, AddService(b, s));
    assert forall d :: d != b ==> Services(after, d) == Services(rows, d);
    assert forall p :: InProject(after, p) == InProject(rows, p);
    if task.DestroyProject? {
      assert BranchKey(b) in BranchKeys(rows, b) && b !in InProject(rows, task.project);
      assert forall d :: d in InProject(rows, task.project) ==> BranchKeys(after, d) == BranchKeys(rows, d);
    }
  }

  lemma BranchStays(rows: Rows, e: RowEdit, task: Task)
    requires RowsOk(rows) && Known(rows, task) && e.AddBranch? && EditAllowed(rows, e)
    requires EditKeys(e) !! Needed(rows, task) || task.Create? || task.Destroy?
    ensures Needed(Edited(rows, e), task) <= Needed(rows, task)
  {
    var after := Edited(rows, e);
    assert forall d :: d != e.branch ==> Services(after, d) == Services(rows, d);
    match task
    case Create(_, _, _, _, _) =>
    case Destroy(_) =>
    case DestroyProject(p) =>
      assert p != e.project && InProject(after, p) == InProject(rows, p);
      assert forall d :: d in InProject(rows, p) ==> BranchKeys(after, d) == BranchKeys(rows, d);
    case Rename(p, s) => ProjectStays(rows, e, p, s);
    case RemoveVolume(p, s) => ProjectStays(rows, e, p, s);
  }

  lemma ProjectStays(rows: Rows, e: RowEdit, p: ProjectId, s: Svc)
    requires RowsOk(rows) && p in rows.projects && e.AddBranch? && EditAllowed(rows, e) && EditKeys(e) !! WideKeys(rows, p, s)
    ensures InProject(Edited(rows, e), p) == InProject(rows, p)
  {
    if e.source.Some? {
      var src := e.source.value;
      assert BranchKey(src) in CarrierKeys(src, s);
      assert src in InProject(rows, p) ==> BranchKey(src) in WideKeys(rows, p, s);
    }
    assert p != e.project;
  }

  /** While somebody holds all an operation needs, nobody else's change makes it need more. */
  lemma ForeignEditStays(rows: Rows, e: RowEdit, task: Task)
    requires RowsOk(rows) && Known(rows, task) && EditAllowed(rows, e) && EditKeys(e) !! Needed(rows, task)
    ensures Needed(Edited(rows, e), task) <= Needed(rows, task)
  {
    match e
    case AddService(b, s) => AddStays(rows, b, s, task);
    case AddBranch(_, _, _, _, _) => BranchStays(rows, e, task);
    case _ => RemovalsShrink(rows, e, task);
  }

  lemma OwnEditStays(rows: Rows, e: RowEdit, task: Task)
    requires RowsOk(rows) && Known(rows, task) && EditAllowed(rows, e) && OwnEdit(rows, task, e)
    ensures Needed(Edited(rows, e), task) <= Needed(rows, task)
  {
    match e
    case AddBranch(_, _, _, _, _) => BranchStays(rows, e, task);
    case AddService(b, s) => OwnAddStays(rows, b, s, task);
    case _ => RemovalsShrink(rows, e, task);
  }

  lemma OwnAddStays(rows: Rows, b: BranchId, s: Svc, task: Task)
    requires Known(rows, task) && EditAllowed(rows, AddService(b, s)) && OwnEdit(rows, task, AddService(b, s))
    ensures Needed(Edited(rows, AddService(b, s)), task) <= Needed(rows, task)
  {
    var after := Edited(rows, AddService(b, s));
    if task.Create? {
      assert Services(after, task.source) == Services(rows, task.source);
    } else {
      assert forall p :: InProject(after, p) == InProject(rows, p);
    }
  }

  // ---- which key names which branch ------------------------------------------------------------

  lemma MarkSplits(b: BranchId, s: Svc, d: BranchId, v: Svc)
    requires Plain(b) && Plain(d) && ServiceKey(b, s) == ServiceKey(d, v)
    ensures b == d && s == v
  {
    var k := ServiceKey(b, s);
    assert k[|b|] == MARK && k[|d|] == MARK;
    assert forall i :: 0 <= i < |b| ==> k[i] == b[i];
    assert forall i :: 0 <= i < |d| ==> k[i] == d[i];
    assert k[..|b|] == b && k[..|d|] == d && k[|b| + 1..] == s && k[|d| + 1..] == v;
  }

  lemma ProjectKeyIsNoBranchKey(p: ProjectId, b: BranchId)
    ensures ProjectKey(p) != BranchKey(b)
  {
    assert ProjectKey(p)[|ProjectKey(p)| - 1] == 't';
    assert BranchKey(b)[|BranchKey(b)| - 1] == 'h';
  }

  /** Of the keys of branches, a create needs those of its source and its clone only. */
  lemma CreateNamesTwo(rows: Rows, task: Task, b: BranchId)
    requires RowsOk(rows) && Known(rows, task) && task.Create? && Plain(b) && BranchKey(b) in Needed(rows, task)
    ensures b == task.source || b == task.clone
  {
    ProjectKeyIsNoBranchKey(task.project, b);
    var d, v :| d in {task.source, task.clone} && BranchKey(b) == ServiceKey(d, v) && (v == WHOLE || v in Carried(rows, task));
    MarkSplits(b, WHOLE, d, v);
  }

  // ---- the loop --------------------------------------------------------------------------------

  const LOCK_ROUNDS := 3

  datatype Outcome = Ran(round: nat, held: set<Key>) | GaveUp

  /** The keys acquired in round `r`, when `needed(q)` is what round `q` finds it needs: the initial ones and
      everything the rounds before asked for. */
  function HeldIn(initial: set<Key>, needed: nat -> set<Key>, r: nat): set<Key> {
    if r == 0 then initial else HeldIn(initial, needed, r - 1) + needed(r - 1)
  }

  predicate SettlesIn(initial: set<Key>, needed: nat -> set<Key>, r: nat) {
    needed(r) <= HeldIn(initial, needed, r)
  }

  /** What each round finds it needs, `rows(r)` being the rows as they stand under the lock in round `r`. */
  function Recomputed(task: Task, rows: nat -> Rows): nat -> set<Key> {
    (r: nat) => Needed(rows(r), task)
  }

  /** The loop: which round its body runs in, if any. */
  method Drive(initial: set<Key>, needed: nat -> set<Key>) returns (out: Outcome)
    ensures out.Ran? ==> out.round < 3 && out.held == HeldIn(initial, needed, out.round) && SettlesIn(initial, needed, out.round)
    ensures out.Ran? ==> forall r: nat :: r < out.round ==> !SettlesIn(initial, needed, r)
    ensures out.GaveUp? ==> forall r: nat :: r < 3 ==> !SettlesIn(initial, needed, r)
  {
    var keys := initial;
    var round: nat := 0;
    while true
      invariant round < LOCK_ROUNDS
      invariant keys == HeldIn(initial, needed, round)
      invariant forall r: nat :: r < round ==> !SettlesIn(initial, needed, r)
      decreases LOCK_ROUNDS - round
    {
      var now := needed(round);
      if now <= keys {
        return Ran(round, keys);
      }
      if round + 1 >= LOCK_ROUNDS {
        return GaveUp;
      }
      keys := keys + now;
      round := round + 1;
    }
  }

  lemma {:induction false} HeldGrows(initial: set<Key>, needed: nat -> set<Key>, q: nat, r: nat)
    requires q <= r
    ensures HeldIn(initial, needed, q) <= HeldIn(initial, needed, r)
    ensures q < r ==> needed(q) <= HeldIn(initial, needed, r)
    decreases r
  {
    if q < r {
      HeldGrows(initial, needed, q, r - 1);
    }
  }

  /** An operation runs as soon as one round finds rows that need nothing beyond what some earlier round
      found or held: the rows may grow while it queues, but have to outgrow every round for it to fail. */
  lemma SettlesOnceStable(task: Task, initial: set<Key>, rows: nat -> Rows, q: nat, r: nat)
    requires q < r && Needed(rows(r), task) <= Needed(rows(q), task) + HeldIn(initial, Recomputed(task, rows), q)
    ensures SettlesIn(initial, Recomputed(task, rows), r)
  {
    HeldGrows(initial, Recomputed(task, rows), q, r);
  }

  // ---- beside everything else that runs --------------------------------------------------------

  /** Before an acquisition, waiting for it or just granted it, found outgrown, in the body, past it, and
      over with or without having run. */
  datatype Stage = Asking | Acquiring | Outgrown(more: set<Key>) | InBody | Leaving | Finished | Unsettled

  /** A context that runs the loop; `saw` are the rows its body works from, `edits` counts the changes it
      made to them. */
  datatype Driver = Driver(task: Task, keys: set<Key>, round: nat, phase: Stage, saw: Rows, edits: nat)

  /** A service add asked for: it takes the key of the branch its name resolves to then, or none, and looks
      the name up again in its body. */
  datatype AddRequest = AddRequest(project: ProjectId, name: Name, found: Option<BranchId>)

  datatype World = World(sys: Sys, rows: Rows, drivers: map<CtxId, Driver>, asked: set<AddRequest>)

  /** Steps of contexts that are no drivers, with what the lock and the chain grant; the steps of a driver,
      among them a redeploy inside its body, which looks its branch up by name; changes to the rows; and an
      add that comes out at another branch than the one whose key it asked for. */
  datatype Step =
    | Outside(a: Action)
    | Undertake(c: CtxId, task: Task)
    | Ask(c: CtxId, order: seq<Key>)
    | Check(c: CtxId)
    | Reenter(c: CtxId, order: seq<Key>)
    | Redeploy(c: CtxId, svc: Svc, to: Option<BranchId>)
    | Redeployed(c: CtxId)
    | UseChain(c: CtxId, enter: bool)
    | EndBody(c: CtxId)
    | LetGo(c: CtxId)
    | Change(c: CtxId, e: RowEdit)
    | AskForAdd(r: AddRequest)
    | StrayAdd(r: AddRequest, branch: BranchId, svc: Svc)

  function Actor(a: Action): Option<CtxId> {
    match a
    case Arrive => None
    case Acquire(c, _) => Some(c)
    case Try(c, _) => Some(c)
    case Grant(c) => Some(c)
    case ReleaseTop(c) => Some(c)
    case EnterProvision(c) => Some(c)
    case GrantProvision(c) => Some(c)
    case LeaveProvision(c) => Some(c)
    case Quit(c) => Some(c)
  }

  function KeysIn(order: seq<Key>): set<Key> {
    set k | k in order
  }

  predicate IsIn(w: World, c: CtxId, phase: Stage) {
    c in w.drivers && w.drivers[c].phase == phase
  }

  predicate OwnsNothing(s: Sys, c: CtxId) {
    Live(s, c) && s.ctxs[c].stack == [] && !s.ctxs[c].inProvision
  }

  /** A driver's own actions on the lock are none of `Outside`. */
  predicate IsOutside(w: World, a: Action) {
    && (a.Grant? || a.GrantProvision? || Actor(a).None? || Actor(a).value !in w.drivers
        || (a.Quit? && w.drivers[a.c].phase in {Finished, Unsettled}))
    && CanAct(w.sys, a) && Disciplined(w.sys, a)
  }

  /** A create redeploys what it carries over under the name it was asked for, once its row is there; a
      volume removal its group on each branch it read, under the name it read. */
  predicate Redeploys(w: World, d: Driver, svc: Svc, to: Option<BranchId>) {
    match d.task
    case Create(p, _, clone, name, _) => clone in w.rows.ids && svc in Carried(d.saw, d.task) && Resolves(w.rows, p, name, to)
    case RemoveVolume(p, s) => svc == s && exists b :: b in InProject(d.saw, p) && Resolves(w.rows, p, d.saw.branches[b].name, to)
    case _ => false
  }

  predicate CanStep(w: World, e: Step) {
    match e
    case Outside(a) => IsOutside(w, a)
    case Undertake(c, task) => Works(w.sys, c) && OwnsNothing(w.sys, c) && c !in w.drivers && Known(w.rows, task)
    case Ask(c, order) => IsIn(w, c, Asking) && Works(w.sys, c) && KeysIn(order) == w.drivers[c].keys
    case Check(c) => IsIn(w, c, Acquiring) && Works(w.sys, c)
    case Reenter(c, order) => IsIn(w, c, InBody) && Works(w.sys, c) && KeysIn(order) <= Needed(w.drivers[c].saw, w.drivers[c].task)
    case Redeploy(c, svc, to) =>
      && IsIn(w, c, InBody) && Works(w.sys, c) && !w.sys.ctxs[c].inProvision && |w.sys.ctxs[c].stack| <= 1
      && Redeploys(w, w.drivers[c], svc, to)
    case Redeployed(c) =>
      IsIn(w, c, InBody) && Works(w.sys, c) && |w.sys.ctxs[c].stack| > 1 && CanAct(w.sys, ReleaseTop(c))
    case UseChain(c, enter) =>
      && IsIn(w, c, InBody)
      && if enter then Works(w.sys, c) && !w.sys.ctxs[c].inProvision else CanAct(w.sys, LeaveProvision(c))
    case EndBody(c) => IsIn(w, c, InBody) && Works(w.sys, c) && !w.sys.ctxs[c].inProvision && |w.sys.ctxs[c].stack| <= 1
    case LetGo(c) => c in w.drivers && (w.drivers[c].phase.Outgrown? || w.drivers[c].phase.Leaving?) && Works(w.sys, c)
                     && (w.sys.ctxs[c].stack != [] ==> CanAct(w.sys, ReleaseTop(c)))
    case Change(c, edit) =>
      && Live(w.sys, c) && EditAllowed(w.rows, edit) && EditKeys(edit) <= Held(w.sys, c)
      && (c in w.drivers ==> w.drivers[c].phase.InBody? && OwnEdit(w.rows, w.drivers[c].task, edit))
    case AskForAdd(r) => Resolves(w.rows, r.project, r.name, r.found)
    case StrayAdd(r, b, s) =>
      r in w.asked && Called(w.rows, r.project, r.name, b) && r.found != Some(b) && EditAllowed(w.rows, AddService(b, s))
  }

  /** The keys a redeploy asks for: those of the branch it found. */
  function DeployOrder(b: BranchId, svc: Svc): seq<Key> {
    [BranchKey(b), ServiceKey(b, svc)]
  }

  /** What a step does to the lock. */
  function OnLock(w: World, e: Step): Option<Action>
    requires CanStep(w, e)
  {
    match e
    case Outside(a) => Some(a)
    case Ask(c, order) => Some(Action.Acquire(c, order))
    case Reenter(c, order) => Some(Action.Acquire(c, order))
    case Redeploy(c, svc, to) => if to.Some? then Some(Action.Acquire(c, DeployOrder(to.value, svc))) else None
    case Redeployed(c) => Some(ReleaseTop(c))
    case UseChain(c, enter) => Some(if enter then EnterProvision(c) else LeaveProvision(c))
    case LetGo(c) => if w.sys.ctxs[c].stack != [] then Some(ReleaseTop(c)) else None
    case _ => None
  }

  /** What the recomputation under the lock decides. */
  function Checked(rows: Rows, d: Driver): Driver {
    var now := Needed(rows, d.task);
    if now <= d.keys then d.(phase := InBody, saw := rows) else d.(phase := Outgrown(d.keys + now))
  }

  /** With everything given back: the next round, over the union, or the end. */
  function LetGone(d: Driver): Driver {
    match d.phase
    case Outgrown(more) => if d.round >= LOCK_ROUNDS then d.(phase := Unsettled) else d.(keys := more, round := d.round + 1, phase := Asking)
    case _ => d.(phase := Finished)
  }

  function DriverAfter(w: World, e: Step): map<CtxId, Driver>
    requires CanStep(w, e)
  {
    match e
    case Undertake(c, task) => w.drivers[c := Driver(task, Needed(w.rows, task), 1, Asking, w.rows, 0)]
    case Ask(c, _) => w.drivers[c := w.drivers[c].(phase := Acquiring)]
    case Check(c) => w.drivers[c := Checked(w.rows, w.drivers[c])]
    case EndBody(c) => w.drivers[c := w.drivers[c].(phase := Leaving)]
    case LetGo(c) => w.drivers[c := LetGone(w.drivers[c])]
    case Change(c, _) => if c in w.drivers then w.drivers[c := w.drivers[c].(edits := w.drivers[c].edits + 1)] else w.drivers
    case _ => w.drivers
  }

  function RowsAfter(w: World, e: Step): Rows
    requires CanStep(w, e)
  {
    match e
    case Change(_, edit) => Edited(w.rows, edit)
    case StrayAdd(_, b, s) => Edited(w.rows, AddService(b, s))
    case _ => w.rows
  }

  lemma LockAction(w: World, e: Step)
    requires CanStep(w, e)
    ensures OnLock(w, e).Some? ==> CanAct(w.sys, OnLock(w, e).value)
  {
  }

  function StepOf(w: World, e: Step): World
    requires CanStep(w, e)
  {
    LockAction(w, e);
    World(if OnLock(w, e).Some? then Act(w.sys, OnLock(w, e).value) else w.sys, RowsAfter(w, e), DriverAfter(w, e),
          if e.AskForAdd? then w.asked + {e.r} else w.asked)
  }

  // ---- what every step keeps -------------------------------------------------------------------

  /** Where a driver stands: it owns nothing before it asks and after it has let go, and exactly the keys it
      asked for in between, but for what a redeploy may take on top; and outside its body it has changed
      nothing. */
  ghost predicate DriverOk(s: Sys, c: CtxId, d: Driver) {
    && Live(s, c) && 1 <= d.round <= LOCK_ROUNDS
    && var x := s.ctxs[c];
       match d.phase
       case Asking => OwnsNothing(s, c) && x.mode.Working? && d.edits == 0
       case Acquiring => Holds(s, c, d.keys) && d.edits == 0
       case Outgrown(more) => Owns(s, c, d.keys) && !x.inProvision && x.mode.Working? && d.edits == 0 && d.keys < more
       case InBody => WorksOn(s, c, d.keys) && Needed(d.saw, d.task) <= d.keys
       case Leaving => Owns(s, c, d.keys) && !x.inProvision && x.mode.Working?
       case Finished => OwnsNothing(s, c) && (x.mode.Working? || x.mode.Ended?)
       case Unsettled => OwnsNothing(s, c) && (x.mode.Working? || x.mode.Ended?) && d.edits == 0 && d.round == LOCK_ROUNDS
  }

  /** It has one acquisition at most, and that is of the keys. */
  ghost predicate Owns(s: Sys, c: CtxId, keys: set<Key>) {
    Live(s, c) && |s.ctxs[c].stack| <= 1 && Held(s, c) == keys
  }

  /** It has been granted the keys, or waits for them. */
  ghost predicate Holds(s: Sys, c: CtxId, keys: set<Key>) {
    && Live(s, c) && !s.ctxs[c].inProvision
    && match s.ctxs[c].mode
       case Working => Owns(s, c, keys)
       case AwaitingKeys(t) => s.ctxs[c].stack == [] && 0 <= t < |s.lock.tickets| && KeysIn(s.lock.tickets[t].keys) == keys
       case _ => false
  }

  /** Its first acquisition is of the keys. */
  ghost predicate WorksOn(s: Sys, c: CtxId, keys: set<Key>) {
    && Live(s, c)
    && var x := s.ctxs[c];
       && !x.mode.Ended? && (x.inProvision ==> |x.stack| <= x.depth)
       && (x.mode.AwaitingKeys? ==> x.stack != [] && !x.inProvision)
       && if x.stack == [] then keys == {} else 0 <= x.stack[0] < |s.lock.tickets| && KeysIn(s.lock.tickets[x.stack[0]].keys) == keys
  }

  /** Operations over the same service of a whole project, whose keys no service changes. */
  predicate IsWide(task: Task) {
    task.Rename? || task.RemoveVolume?
  }

  ghost predicate WorldOk(w: World) {
    && SysSafe(w.sys) && RowsOk(w.rows)
    && (forall c :: c in w.drivers ==> DriverOk(w.sys, c, w.drivers[c]) && TaskOk(w.rows, w.drivers[c]))
    && WideBodiesHold(w)
  }

  /** The keys of a create name its two branches. */
  ghost predicate Fits(task: Task, keys: set<Key>) {
    task.Create? ==>
      && ProjectKey(task.project) in keys
      && forall b :: Plain(b) && BranchKey(b) in keys ==> b == task.source || b == task.clone
  }

  ghost predicate TaskOk(rows: Rows, d: Driver) {
    Known(rows, d.task) && Fits(d.task, d.keys) && (d.phase.Outgrown? ==> Fits(d.task, d.phase.more))
  }

  ghost predicate WideBodiesHold(w: World) {
    forall c :: c in w.drivers && w.drivers[c].phase.InBody? && IsWide(w.drivers[c].task) ==>
      Needed(w.rows, w.drivers[c].task) <= w.drivers[c].keys
  }

  /** An operation in its body holds every key it needs as the rows stand. */
  ghost predicate BodiesHold(w: World) {
    forall c :: c in w.drivers && w.drivers[c].phase.InBody? ==> Needed(w.rows, w.drivers[c].task) <= w.drivers[c].keys
  }

  /** Whether a delete or a create in its body needs service `s` of branch `b` and has not got its keys. */
  ghost predicate Lacks(rows: Rows, d: Driver, b: BranchId, s: Svc) {
    match d.task
    case Create(_, src, clone, _, bare) => !bare && b == src && !(ServiceKey(src, s) in d.keys && ServiceKey(clone, s) in d.keys)
    case Destroy(branch) => b == branch && ServiceKey(b, s) !in d.keys
    case DestroyProject(p) => b in InProject(rows, p) && ServiceKey(b, s) !in d.keys
    case _ => false
  }

  /** An add comes out on a branch that an operation in its body has no key of that service for. */
  ghost predicate Overtakes(w: World, e: Step) {
    e.StrayAdd? && exists c :: c in w.drivers && w.drivers[c].phase.InBody? && Lacks(w.rows, w.drivers[c], e.branch, e.svc)
  }

  /** A create's redeploy comes out at a branch that is neither its clone nor its source. */
  predicate Misled(w: World, e: Step) {
    e.Redeploy? && e.to.Some? && e.c in w.drivers && w.drivers[e.c].task.Create?
    && e.to.value != w.drivers[e.c].task.clone && e.to.value != w.drivers[e.c].task.source
  }

  lemma KeysStay(s: Sys, a: Action, t: TicketId)
    requires CanAct(s, a) && 0 <= t < |s.lock.tickets|
    ensures |s.lock.tickets| <= |Act(s, a).lock.tickets| && Act(s, a).lock.tickets[t].keys == s.lock.tickets[t].keys
  {
  }

  lemma HeldStays(s: Sys, n: Sys, c: CtxId)
    requires Live(s, c) && Live(n, c) && n.ctxs[c].stack == s.ctxs[c].stack && |s.lock.tickets| <= |n.lock.tickets|
    requires forall t :: t in s.ctxs[c].stack ==> 0 <= t < |s.lock.tickets|
    requires forall t :: 0 <= t < |s.lock.tickets| ==> n.lock.tickets[t].keys == s.lock.tickets[t].keys
    ensures Held(n, c) == Held(s, c)
  {
  }

  /** What another context does leaves a context and what it owns alone. */
  lemma OthersLeaveAlone(s: Sys, a: Action, c: CtxId)
    requires SysSafe(s) && CanAct(s, a) && Live(s, c) && Actor(a) != Some(c)
    ensures var n := Act(s, a); Live(n, c) && n.ctxs[c] == s.ctxs[c] && Held(n, c) == Held(s, c)
  {
    var n := Act(s, a);
    assert CtxOk(s, c);
    forall t | 0 <= t < |s.lock.tickets| ensures n.lock.tickets[t].keys == s.lock.tickets[t].keys {
      KeysStay(s, a, t);
    }
    HeldStays(s, n, c);
  }

  lemma DriverLeftAlone(s: Sys, a: Action, c: CtxId, d: Driver)
    requires SysSafe(s) && CanAct(s, a) && DriverOk(s, c, d) && Actor(a) != Some(c)
    ensures DriverOk(Act(s, a), c, d)
  {
    OthersLeaveAlone(s, a, c);
    var x := s.ctxs[c];
    assert CtxOk(s, c);
    if x.mode.AwaitingKeys? {
      KeysStay(s, a, x.mode.t);
    }
    if x.stack != [] {
      assert x.stack[0] in x.stack;
      KeysStay(s, a, x.stack[0]);
    }
  }

  // ---- one step of the world -------------------------------------------------------------------

  /** Everybody but `c` and the driver it is, over a step that acts on the lock through `c` alone. */
  lemma OthersOk(w: World, e: Step, c: CtxId)
    requires WorldOk(w) && CanStep(w, e) && OnLock(w, e).Some? && Actor(OnLock(w, e).value) == Some(c)
    ensures forall d :: d in w.drivers && d != c ==> DriverOk(StepOf(w, e).sys, d, w.drivers[d])
  {
    LockAction(w, e);
    forall d | d in w.drivers && d != c ensures DriverOk(StepOf(w, e).sys, d, w.drivers[d]) {
      DriverLeftAlone(w.sys, OnLock(w, e).value, d, w.drivers[d]);
    }
  }

  lemma EmptyStackHoldsNothing(s: Sys, c: CtxId)
    requires Live(s, c) && s.ctxs[c].stack == []
    ensures Held(s, c) == {}
  {
  }

  lemma OneTicketHolds(s: Sys, c: CtxId, t: TicketId)
    requires Live(s, c) && s.ctxs[c].stack == [t] && 0 <= t < |s.lock.tickets|
    ensures Held(s, c) == KeysIn(s.lock.tickets[t].keys)
  {
  }

  /** In its body a driver holds the keys it asked for, and no others unless a redeploy took them. */
  lemma BodyHolds(s: Sys, c: CtxId, keys: set<Key>)
    requires WorksOn(s, c, keys)
    ensures keys <= Held(s, c) && (|s.ctxs[c].stack| <= 1 ==> Held(s, c) == keys)
  {
    var stack := s.ctxs[c].stack;
    if stack == [] {
      EmptyStackHoldsNothing(s, c);
    } else {
      assert stack[0] in stack;
      if |stack| == 1 {
        assert stack == [stack[0]];
        OneTicketHolds(s, c, stack[0]);
      }
    }
  }

  lemma NeedOfNothingHeld(order: seq<Key>)
    ensures KeysIn(Need(order, {})) == KeysIn(order)
  {
  }

  lemma FirstIsMember(keys: seq<Key>)
    ensures keys == [] || keys[0] in keys
  {
  }

  lemma NothingNew(order: seq<Key>, held: set<Key>)
    ensures KeysIn(order) <= held <==> Need(order, held) == []
  {
    var need := Need(order, held);
    FirstIsMember(need);
    assert forall k :: k in order <==> k in KeysIn(order);
    assert forall k :: k in need <==> k in order && k !in held;
  }

  /** A driver asks for its keys while it owns nothing. */
  lemma AskOk(w: World, c: CtxId, order: seq<Key>)
    requires WorldOk(w) && CanStep(w, Ask(c, order))
    ensures Disciplined(w.sys, Action.Acquire(c, order))
    ensures DriverOk(StepOf(w, Ask(c, order)).sys, c, w.drivers[c].(phase := Acquiring))
  {
    var s := w.sys;
    assert DriverOk(s, c, w.drivers[c]);
    EmptyStackHoldsNothing(s, c);
    NeedOfNothingHeld(order);
    var need := Need(order, {});
    var n := StepOf(w, Ask(c, order)).sys;
    if need == [] {
      assert KeysIn(need) == {};
    } else {
      assert n == Waiting(s, c, need);
      assert n.lock.tickets[|s.lock.tickets|].keys == need;
    }
  }

  /** In its body it asks for nothing new. */
  lemma ReenterOk(w: World, c: CtxId, order: seq<Key>)
    requires WorldOk(w) && CanStep(w, Reenter(c, order))
    ensures Need(order, Held(w.sys, c)) == [] && StepOf(w, Reenter(c, order)).sys == w.sys
  {
    assert DriverOk(w.sys, c, w.drivers[c]);
    BodyHolds(w.sys, c, w.drivers[c].keys);
    NothingNew(order, Held(w.sys, c));
  }

  lemma OrderNames(b: BranchId, svc: Svc)
    ensures KeysIn(DeployOrder(b, svc)) == CarrierKeys(b, svc)
  {
    var order := DeployOrder(b, svc);
    assert order[0] == BranchKey(b) && order[1] == ServiceKey(b, svc);
  }

  /** The branches a create's redeploys have the keys of are its own two. */
  lemma CreateOwnsTwo(w: World, c: CtxId, svc: Svc, b: BranchId)
    requires WorldOk(w) && CanStep(w, Redeploy(c, svc, Some(b))) && w.drivers[c].task.Create?
    ensures CarrierKeys(b, svc) <= w.drivers[c].keys <==> b == w.drivers[c].task.source || b == w.drivers[c].task.clone
    ensures w.drivers[c].keys != {}
  {
    var d := w.drivers[c];
    assert DriverOk(w.sys, c, d) && TaskOk(w.rows, d) && Plain(b);
    assert BranchKey(b) in CarrierKeys(b, svc);
    assert ServiceKey(d.task.source, svc) in Needed(d.saw, d.task) && ServiceKey(d.task.clone, svc) in Needed(d.saw, d.task);
  }

  lemma RemovalOwnsAll(w: World, c: CtxId, svc: Svc, b: BranchId)
    requires WorldOk(w) && CanStep(w, Redeploy(c, svc, Some(b))) && w.drivers[c].task.RemoveVolume?
    ensures CarrierKeys(b, svc) <= w.drivers[c].keys
  {
    var p := w.drivers[c].task.project;
    assert b in InProject(w.rows, p);
    assert CarrierKeys(b, svc) <= WideKeys(w.rows, p, svc);
  }

  /** What a redeploy asks for is owned exactly when it did not come out at a strange branch. */
  lemma RedeployOk(w: World, c: CtxId, svc: Svc, b: BranchId)
    requires WorldOk(w) && CanStep(w, Redeploy(c, svc, Some(b)))
    ensures Need(DeployOrder(b, svc), Held(w.sys, c)) == [] <==> !Misled(w, Redeploy(c, svc, Some(b)))
    ensures Misled(w, Redeploy(c, svc, Some(b))) ==> w.sys.ctxs[c].stack != []
  {
    var keys := w.drivers[c].keys;
    assert DriverOk(w.sys, c, w.drivers[c]);
    BodyHolds(w.sys, c, keys);
    OrderNames(b, svc);
    NothingNew(DeployOrder(b, svc), keys);
    if w.drivers[c].task.Create? {
      CreateOwnsTwo(w, c, svc, b);
    } else {
      RemovalOwnsAll(w, c, svc, b);
    }
  }

  lemma RedeployKeepsDriver(w: World, c: CtxId, svc: Svc, b: BranchId)
    requires WorldOk(w) && CanStep(w, Redeploy(c, svc, Some(b)))
    ensures DriverOk(StepOf(w, Redeploy(c, svc, Some(b))).sys, c, w.drivers[c])
  {
    RedeployOk(w, c, svc, b);
    var s, need := w.sys, Need(DeployOrder(b, svc), Held(w.sys, c));
    assert DriverOk(s, c, w.drivers[c]);
    if need != [] {
      var n := Waiting(s, c, need);
      var first := s.ctxs[c].stack[0];
      assert n.lock.tickets[first] == s.lock.tickets[first];
    }
  }

  lemma RedeployedOk(w: World, c: CtxId)
    requires WorldOk(w) && CanStep(w, Redeployed(c))
    ensures DriverOk(StepOf(w, Redeployed(c)).sys, c, w.drivers[c])
  {
    var s, n := w.sys, StepOf(w, Redeployed(c)).sys;
    assert DriverOk(s, c, w.drivers[c]) && CtxOk(s, c);
    var stack := s.ctxs[c].stack;
    assert n.ctxs[c].stack == stack[..|stack| - 1] && n.ctxs[c].stack[0] == stack[0];
    KeysStay(s, ReleaseTop(c), stack[0]);
  }

  lemma LetGoOk(w: World, c: CtxId)
    requires WorldOk(w) && CanStep(w, LetGo(c))
    ensures DriverOk(StepOf(w, LetGo(c)).sys, c, LetGone(w.drivers[c]))
  {
    assert DriverOk(w.sys, c, w.drivers[c]);
  }

  lemma UseChainOk(w: World, c: CtxId, enter: bool)
    requires WorldOk(w) && CanStep(w, UseChain(c, enter))
    ensures DriverOk(StepOf(w, UseChain(c, enter)).sys, c, w.drivers[c])
  {
    var n := StepOf(w, UseChain(c, enter)).sys;
    assert DriverOk(w.sys, c, w.drivers[c]);
    assert n.ctxs[c].stack == w.sys.ctxs[c].stack && n.lock == w.sys.lock;
  }

  /** What is granted to a driver are the keys it asked for. */
  lemma GrantOk(w: World, a: Action, c: CtxId)
    requires WorldOk(w) && IsOutside(w, a) && Actor(a) == Some(c) && c in w.drivers
    ensures DriverOk(Act(w.sys, a), c, w.drivers[c])
  {
    var s, n := w.sys, Act(w.sys, a);
    assert DriverOk(s, c, w.drivers[c]) && CtxOk(s, c);
    match a
    case Grant(_) => KeysGranted(w, c);
    case GrantProvision(_) =>
      assert n.ctxs[c].stack == s.ctxs[c].stack && n.lock == s.lock;
    case Quit(_) =>
  }

  lemma KeysGranted(w: World, c: CtxId)
    requires WorldOk(w) && c in w.drivers && CanAct(w.sys, Grant(c))
    ensures DriverOk(Act(w.sys, Grant(c)), c, w.drivers[c])
  {
    var s, n := w.sys, Act(w.sys, Grant(c));
    assert DriverOk(s, c, w.drivers[c]) && CtxOk(s, c);
    var x, t := s.ctxs[c], s.ctxs[c].mode.t;
    assert n.lock.tickets[t].keys == s.lock.tickets[t].keys;
    if x.stack == [] {
      assert x.stack + [t] == [t];
      OneTicketHolds(n, c, t);
    } else {
      assert x.stack[0] in x.stack && n.ctxs[c].stack[0] == x.stack[0];
      KeysStay(s, Grant(c), x.stack[0]);
    }
  }

  // ---- every step ------------------------------------------------------------------------------

  /** A step that changes neither rows nor a driver's task and keys keeps the world, if it keeps the lock
      and the drivers. */
  lemma SameRows(w: World, n: World)
    requires WorldOk(w) && SysSafe(n.sys) && n.rows == w.rows && n.drivers == w.drivers
    requires forall d :: d in n.drivers ==> DriverOk(n.sys, d, n.drivers[d])
    ensures WorldOk(n)
  {
  }

  lemma OutsideKeepsWorld(w: World, a: Action)
    requires WorldOk(w) && IsOutside(w, a)
    ensures WorldOk(StepOf(w, Outside(a)))
  {
    StepKeepsSafe(w.sys, a);
    var n := StepOf(w, Outside(a));
    forall d | d in n.drivers ensures DriverOk(n.sys, d, n.drivers[d]) {
      if Actor(a) == Some(d) {
        GrantOk(w, a, d);
      } else {
        DriverLeftAlone(w.sys, a, d, w.drivers[d]);
      }
    }
    SameRows(w, n);
  }

  /** The keys that become a driver's are fit for its task. */
  lemma NeededFits(rows: Rows, task: Task)
    requires RowsOk(rows) && Known(rows, task)
    ensures Fits(task, Needed(rows, task))
  {
    if task.Create? {
      forall b | Plain(b) && BranchKey(b) in Needed(rows, task) ensures b == task.source || b == task.clone {
        CreateNamesTwo(rows, task, b);
      }
    }
  }

  lemma UndertakeKeepsWorld(w: World, c: CtxId, task: Task)
    requires WorldOk(w) && CanStep(w, Undertake(c, task))
    ensures WorldOk(StepOf(w, Undertake(c, task)))
  {
    NeededFits(w.rows, task);
  }

  lemma AskKeepsWorld(w: World, c: CtxId, order: seq<Key>)
    requires WorldOk(w) && CanStep(w, Ask(c, order))
    ensures WorldOk(StepOf(w, Ask(c, order)))
  {
    AskOk(w, c, order);
    StepKeepsSafe(w.sys, Action.Acquire(c, order));
    OthersOk(w, Ask(c, order), c);
  }

  lemma CheckKeepsWorld(w: World, c: CtxId)
    requires WorldOk(w) && CanStep(w, Check(c))
    ensures WorldOk(StepOf(w, Check(c)))
  {
    var d := w.drivers[c];
    assert DriverOk(w.sys, c, d) && TaskOk(w.rows, d);
    NeededFits(w.rows, d.task);
    var now := Needed(w.rows, d.task);
    if now <= d.keys {
      assert WorksOn(w.sys, c, d.keys) by {
        OwnsWorks(w.sys, c, d.keys);
      }
    } else {
      var k :| k in now && k !in d.keys;
      assert k in d.keys + now;
    }
  }

  lemma OwnsWorks(s: Sys, c: CtxId, keys: set<Key>)
    requires SysSafe(s) && Owns(s, c, keys) && s.ctxs[c].mode.Working? && !s.ctxs[c].inProvision
    ensures WorksOn(s, c, keys)
  {
    var stack := s.ctxs[c].stack;
    assert CtxOk(s, c);
    if stack == [] {
      EmptyStackHoldsNothing(s, c);
    } else {
      assert stack[0] in stack && stack == [stack[0]];
      OneTicketHolds(s, c, stack[0]);
    }
  }

  lemma ReenterKeepsWorld(w: World, c: CtxId, order: seq<Key>)
    requires WorldOk(w) && CanStep(w, Reenter(c, order))
    ensures WorldOk(StepOf(w, Reenter(c, order)))
  {
    ReenterOk(w, c, order);
    SameRows(w, StepOf(w, Reenter(c, order)));
  }

  lemma RedeployKeepsWorld(w: World, c: CtxId, svc: Svc, to: Option<BranchId>)
    requires WorldOk(w) && CanStep(w, Redeploy(c, svc, to))
    ensures WorldOk(StepOf(w, Redeploy(c, svc, to)))
  {
    if to.Some? {
      RedeployKeepsDriver(w, c, svc, to.value);
      StepKeepsSafe(w.sys, Action.Acquire(c, DeployOrder(to.value, svc)));
      OthersOk(w, Redeploy(c, svc, to), c);
      SameRows(w, StepOf(w, Redeploy(c, svc, to)));
    }
  }

  lemma RedeployedKeepsWorld(w: World, c: CtxId)
    requires WorldOk(w) && CanStep(w, Redeployed(c))
    ensures WorldOk(StepOf(w, Redeployed(c)))
  {
    RedeployedOk(w, c);
    StepKeepsSafe(w.sys, ReleaseTop(c));
    OthersOk(w, Redeployed(c), c);
    SameRows(w, StepOf(w, Redeployed(c)));
  }

  lemma EndBodyKeepsWorld(w: World, c: CtxId)
    requires WorldOk(w) && CanStep(w, EndBody(c))
    ensures WorldOk(StepOf(w, EndBody(c)))
  {
    assert DriverOk(w.sys, c, w.drivers[c]);
    BodyHolds(w.sys, c, w.drivers[c].keys);
  }

  lemma LetGoKeepsWorld(w: World, c: CtxId)
    requires WorldOk(w) && CanStep(w, LetGo(c))
    ensures WorldOk(StepOf(w, LetGo(c)))
  {
    LetGoOk(w, c);
    if w.sys.ctxs[c].stack != [] {
      StepKeepsSafe(w.sys, ReleaseTop(c));
      OthersOk(w, LetGo(c), c);
    }
  }

  lemma UseChainKeepsWorld(w: World, c: CtxId, enter: bool)
    requires WorldOk(w) && CanStep(w, UseChain(c, enter))
    ensures WorldOk(StepOf(w, UseChain(c, enter)))
  {
    UseChainOk(w, c, enter);
    LockAction(w, UseChain(c, enter));
    StepKeepsSafe(w.sys, OnLock(w, UseChain(c, enter)).value);
    OthersOk(w, UseChain(c, enter), c);
    SameRows(w, StepOf(w, UseChain(c, enter)));
  }

  lemma KeysApart(s: Sys, c: CtxId, d: CtxId)
    requires SysSafe(s) && Live(s, c) && Live(s, d) && c != d
    ensures Held(s, c) !! Held(s, d)
  {
    forall k | k in Held(s, c) ensures k !in Held(s, d) {
      var t :| t in s.ctxs[c].stack && 0 <= t < |s.lock.tickets| && k in s.lock.tickets[t].keys;
      forall u | u in s.ctxs[d].stack && 0 <= u < |s.lock.tickets| ensures k !in s.lock.tickets[u].keys {
        OneTicketPerKey(s, t, u, c, d, k);
      }
    }
  }

  /** A change made under its keys makes no body that holds all it needs need more. */
  lemma ChangeStays(w: World, c: CtxId, e: RowEdit, d: CtxId)
    requires WorldOk(w) && CanStep(w, Change(c, e)) && d in w.drivers && w.drivers[d].phase.InBody?
    requires Needed(w.rows, w.drivers[d].task) <= w.drivers[d].keys
    ensures Needed(Edited(w.rows, e), w.drivers[d].task) <= w.drivers[d].keys
  {
    assert DriverOk(w.sys, d, w.drivers[d]) && TaskOk(w.rows, w.drivers[d]);
    if c == d {
      OwnEditStays(w.rows, e, w.drivers[d].task);
    } else {
      KeysApart(w.sys, c, d);
      BodyHolds(w.sys, d, w.drivers[d].keys);
      ForeignEditStays(w.rows, e, w.drivers[d].task);
    }
  }

  lemma ChangeKeepsWorld(w: World, c: CtxId, e: RowEdit)
    requires WorldOk(w) && CanStep(w, Change(c, e))
    ensures WorldOk(StepOf(w, Change(c, e)))
  {
    EditKeepsRows(w.rows, e);
    forall d | d in w.drivers && w.drivers[d].phase.InBody? && IsWide(w.drivers[d].task)
      ensures Needed(Edited(w.rows, e), w.drivers[d].task) <= w.drivers[d].keys
    {
      ChangeStays(w, c, e, d);
    }
  }

  /** What an add makes an operation need: the service's keys, if it needs the branch whole. */
  lemma AddNeeds(rows: Rows, b: BranchId, s: Svc, task: Task)
    requires EditAllowed(rows, AddService(b, s))
    ensures Needed(Edited(rows, AddService(b, s)), task) == Needed(rows, task) + (
              match task
              case Create(_, src, clone, _, bare) => if !bare && b == src then {ServiceKey(src, s), ServiceKey(clone, s)} else {}
              case Destroy(branch) => if b == branch then {ServiceKey(b, s)} else {}
              case DestroyProject(p) => if b in InProject(rows, p) then {ServiceKey(b, s)} else {}
              case _ => {})
  {
    var after := Edited(rows, AddService(b, s));
    assert Services(after, b) == Services(rows, b) + {s};
    assert forall d :: d != b ==> Services(after, d) == Services(rows, d);
    assert forall p :: InProject(after, p) == InProject(rows, p);
    if task.DestroyProject? {
      assert forall d :: d != b ==> BranchKeys(after, d) == BranchKeys(rows, d);
      assert BranchKeys(after, b) == BranchKeys(rows, b) + {ServiceKey(b, s)};
    }
  }

  lemma StrayAddKeepsWorld(w: World, r: AddRequest, b: BranchId, s: Svc)
    requires WorldOk(w) && CanStep(w, StrayAdd(r, b, s))
    ensures WorldOk(StepOf(w, StrayAdd(r, b, s)))
  {
    EditKeepsRows(w.rows, AddService(b, s));
    forall d | d in w.drivers && IsWide(w.drivers[d].task)
      ensures Needed(Edited(w.rows, AddService(b, s)), w.drivers[d].task) == Needed(w.rows, w.drivers[d].task)
    {
      AddNeeds(w.rows, b, s, w.drivers[d].task);
    }
  }

  lemma AskForAddKeepsWorld(w: World, r: AddRequest)
    requires WorldOk(w) && CanStep(w, AskForAdd(r))
    ensures WorldOk(StepOf(w, AskForAdd(r)))
  {
    SameRows(w, StepOf(w, AskForAdd(r)));
  }

  predicate IsRoundStep(e: Step) {
    e.Undertake? || e.Ask? || e.Check? || e.LetGo?
  }

  predicate IsBodyStep(e: Step) {
    e.Reenter? || e.Redeploy? || e.Redeployed? || e.UseChain? || e.EndBody? || e.Change?
  }

  lemma RoundStepKeepsWorld(w: World, e: Step)
    requires WorldOk(w) && CanStep(w, e) && IsRoundStep(e)
    ensures WorldOk(StepOf(w, e))
  {
    match e
    case Undertake(c, task) => UndertakeKeepsWorld(w, c, task);
    case Ask(c, order) => AskKeepsWorld(w, c, order);
    case Check(c) => CheckKeepsWorld(w, c);
    case LetGo(c) => LetGoKeepsWorld(w, c);
  }

  lemma BodyStepKeepsWorld(w: World, e: Step)
    requires WorldOk(w) && CanStep(w, e) && IsBodyStep(e)
    ensures WorldOk(StepOf(w, e))
  {
    match e
    case Reenter(c, order) => ReenterKeepsWorld(w, c, order);
    case Redeploy(c, svc, to) => RedeployKeepsWorld(w, c, svc, to);
    case Redeployed(c) => RedeployedKeepsWorld(w, c);
    case UseChain(c, enter) => UseChainKeepsWorld(w, c, enter);
    case EndBody(c) => EndBodyKeepsWorld(w, c);
    case Change(c, edit) => ChangeKeepsWorld(w, c, edit);
  }

  lemma OtherStepKeepsWorld(w: World, e: Step)
    requires WorldOk(w) && CanStep(w, e) && !IsRoundStep(e) && !IsBodyStep(e)
    ensures WorldOk(StepOf(w, e))
  {
    match e
    case Outside(a) => OutsideKeepsWorld(w, a);
    case AskForAdd(r) => AskForAddKeepsWorld(w, r);
    case StrayAdd(r, b, s) => StrayAddKeepsWorld(w, r, b, s);
  }

  /** Every step keeps it, a create's that went astray too. */
  lemma StepKeepsWorld(w: World, e: Step)
    requires WorldOk(w) && CanStep(w, e)
    ensures WorldOk(StepOf(w, e))
  {
    if IsRoundStep(e) {
      RoundStepKeepsWorld(w, e);
    } else if IsBodyStep(e) {
      BodyStepKeepsWorld(w, e);
    } else {
      OtherStepKeepsWorld(w, e);
    }
  }

  /** A stray add leaves an operation with all it needs exactly when it was not lacking the keys of the
      service added. */
  lemma StrayAddLacks(w: World, r: AddRequest, b: BranchId, s: Svc, c: CtxId)
    requires CanStep(w, StrayAdd(r, b, s)) && c in w.drivers && Needed(w.rows, w.drivers[c].task) <= w.drivers[c].keys
    ensures Needed(Edited(w.rows, AddService(b, s)), w.drivers[c].task) <= w.drivers[c].keys <==> !Lacks(w.rows, w.drivers[c], b, s)
  {
    AddNeeds(w.rows, b, s, w.drivers[c].task);
  }

  /** Bodies go on holding all they need, exactly when no stray add overtakes one. */
  lemma StepKeepsBodies(w: World, e: Step)
    requires WorldOk(w) && BodiesHold(w) && CanStep(w, e)
    ensures BodiesHold(StepOf(w, e)) <==> !Overtakes(w, e)
  {
    match e
    case Change(c, edit) =>
      forall d | d in w.drivers && w.drivers[d].phase.InBody? ensures Needed(Edited(w.rows, edit), w.drivers[d].task) <= w.drivers[d].keys {
        ChangeStays(w, c, edit, d);
      }
    case StrayAdd(r, b, s) =>
      forall d | d in w.drivers && w.drivers[d].phase.InBody?
        ensures Needed(Edited(w.rows, AddService(b, s)), w.drivers[d].task) <= w.drivers[d].keys <==> !Lacks(w.rows, w.drivers[d], b, s)
      {
        StrayAddLacks(w, r, b, s, d);
      }
    case _ =>
  }

  // ---- whole runs ------------------------------------------------------------------------------

  /** A run from any rows, with nobody about. */
  ghost predicate IsRun(run: seq<Step>, at: seq<World>) {
    && |at| == |run| + 1 && at[0].sys == Empty && RowsOk(at[0].rows) && at[0].drivers == map[] && at[0].asked == {}
    && forall i :: 0 <= i < |run| ==> CanStep(at[i], run[i]) && at[i + 1] == StepOf(at[i], run[i])
  }

  ghost predicate NeverOvertaken(run: seq<Step>, at: seq<World>, n: nat)
    requires IsRun(run, at) && n <= |run|
  {
    forall i :: 0 <= i < n ==> !Overtakes(at[i], run[i])
  }

  ghost predicate NeverMisled(run: seq<Step>, at: seq<World>, n: nat)
    requires IsRun(run, at) && n <= |run|
  {
    forall i :: 0 <= i < n ==> !Misled(at[i], run[i])
  }

  lemma NobodyAbout()
    ensures SysInv(Empty)
  {
    var none: seq<Action> := [];
    assert OpContexts.Legal(none, true) && OpContexts.After(none, true) == Empty;
    ReachableSysInv(none);
  }

  lemma {:induction false} WorldAlwaysOk(run: seq<Step>, at: seq<World>, n: nat)
    requires IsRun(run, at) && n <= |run|
    ensures WorldOk(at[n])
  {
    if n > 0 {
      WorldAlwaysOk(run, at, n - 1);
      StepKeepsWorld(at[n - 1], run[n - 1]);
    } else {
      NobodyAbout();
    }
  }

  lemma {:induction false} BodiesAlwaysHold(run: seq<Step>, at: seq<World>, n: nat)
    requires IsRun(run, at) && n <= |run| && NeverOvertaken(run, at, n)
    ensures BodiesHold(at[n])
  {
    if n > 0 {
      BodiesAlwaysHold(run, at, n - 1);
      WorldAlwaysOk(run, at, n - 1);
      StepKeepsBodies(at[n - 1], run[n - 1]);
    }
  }

  /** Over every interleaving, an operation that runs its body holds every key it needs as the rows stand,
      whatever is added, removed and renamed meanwhile, exactly as long as no add comes out on a branch that
      an operation in its body needs whole, without the key of that service. */
  lemma {:induction false} BodiesHoldWhatTheyNeed(run: seq<Step>, at: seq<World>, n: nat)
    requires IsRun(run, at) && n <= |run|
    ensures (forall i :: 0 <= i <= n ==> BodiesHold(at[i])) <==> NeverOvertaken(run, at, n)
  {
    if NeverOvertaken(run, at, n) {
      forall i | 0 <= i <= n ensures BodiesHold(at[i]) {
        BodiesAlwaysHold(run, at, i);
      }
    } else if !NeverOvertaken(run, at, n - 1) {
      BodiesHoldWhatTheyNeed(run, at, n - 1);
    } else {
      BodiesAlwaysHold(run, at, n - 1);
      WorldAlwaysOk(run, at, n - 1);
      StepKeepsBodies(at[n - 1], run[n - 1]);
      assert !BodiesHold(at[n]);
    }
  }

  /** The keys a driver asks for inside its body. */
  function BodyOrder(e: Step): Option<seq<Key>> {
    match e
    case Reenter(_, order) => Some(order)
    case Redeploy(_, svc, to) => if to.Some? then Some(DeployOrder(to.value, svc)) else None
    case _ => None
  }

  /** What an operation asks for inside its body it owns already, exactly when it is not a create whose
      redeploy came out at a branch that is neither its clone nor its source. */
  lemma ReentryNeedsNothing(run: seq<Step>, at: seq<World>, n: nat)
    requires IsRun(run, at) && n < |run| && BodyOrder(run[n]).Some?
    ensures Need(BodyOrder(run[n]).value, Held(at[n].sys, run[n].c)) == [] <==> !Misled(at[n], run[n])
  {
    WorldAlwaysOk(run, at, n);
    match run[n]
    case Reenter(c, order) => ReenterOk(at[n], c, order);
    case Redeploy(c, svc, to) => RedeployOk(at[n], c, svc, to.value);
    case _ =>
  }

  /** A create that goes on to redeploy a service can be misled exactly while another branch than its clone
      and its source has the name it was asked for. */
  lemma MisledWhileNameIsTaken(w: World, c: CtxId, svc: Svc)
    requires IsIn(w, c, InBody) && Works(w.sys, c) && !w.sys.ctxs[c].inProvision && |w.sys.ctxs[c].stack| <= 1
    requires w.drivers[c].task.Create? && w.drivers[c].task.clone in w.rows.ids && svc in Carried(w.drivers[c].saw, w.drivers[c].task)
    ensures var task := w.drivers[c].task;
            (exists to :: CanStep(w, Redeploy(c, svc, to)) && Misled(w, Redeploy(c, svc, to)))
            <==> exists b :: Called(w.rows, task.project, task.name, b) && b != task.clone && b != task.source
  {
    var task := w.drivers[c].task;
    if to :| CanStep(w, Redeploy(c, svc, to)) && Misled(w, Redeploy(c, svc, to)) {
      assert Called(w.rows, task.project, task.name, to.value);
    }
    if b :| Called(w.rows, task.project, task.name, b) && b != task.clone && b != task.source {
      var e := Redeploy(c, svc, Some(b));
      assert CanStep(w, e) && Misled(w, e);
    }
  }

  /** A step keeps the discipline of the lock exactly when it is no such redeploy. */
  lemma DriversAreDisciplined(w: World, e: Step)
    requires WorldOk(w) && CanStep(w, e) && OnLock(w, e).Some?
    ensures CanAct(w.sys, OnLock(w, e).value) && (Disciplined(w.sys, OnLock(w, e).value) <==> !Misled(w, e))
  {
    LockAction(w, e);
    match e
    case Ask(c, order) => AskOk(w, c, order);
    case Reenter(c, order) => ReenterOk(w, c, order);
    case Redeploy(c, svc, to) => RedeployOk(w, c, svc, to.value);
    case _ =>
  }

  ghost predicate KeepsDiscipline(w: World, e: Step)
    requires CanStep(w, e)
  {
    LockAction(w, e);
    OnLock(w, e).Some? ==> Disciplined(w.sys, OnLock(w, e).value)
  }

  /** So every step of a run keeps it exactly when no create is ever misled. */
  lemma RunsAreDisciplined(run: seq<Step>, at: seq<World>, n: nat)
    requires IsRun(run, at) && n <= |run|
    ensures NeverMisled(run, at, n) <==> forall i :: 0 <= i < n ==> KeepsDiscipline(at[i], run[i])
  {
    forall i | 0 <= i < n ensures KeepsDiscipline(at[i], run[i]) <==> !Misled(at[i], run[i]) {
      WorldAlwaysOk(run, at, i);
      if OnLock(at[i], run[i]).Some? {
        DriversAreDisciplined(at[i], run[i]);
      }
    }
  }

  lemma OneStricter(acts: seq<Action>, a: Action)
    requires OpContexts.Legal(acts, true) && CanAct(OpContexts.After(acts, true), a) && Disciplined(OpContexts.After(acts, true), a)
    ensures OpContexts.Legal(acts + [a], true) && OpContexts.After(acts + [a], true) == Act(OpContexts.After(acts, true), a)
  {
    assert (acts + [a])[..|acts|] == acts;
  }

  /** What the lock sees of such a run, the loops with everything beside them, is one of its disciplined
      runs: everything module OpContexts proves of those holds of it. */
  lemma {:induction false} LockRun(run: seq<Step>, at: seq<World>, n: nat) returns (acts: seq<Action>)
    requires IsRun(run, at) && n <= |run| && NeverMisled(run, at, n)
    ensures OpContexts.Legal(acts, true) && OpContexts.After(acts, true) == at[n].sys
  {
    acts := [];
    if n > 0 {
      acts := LockRun(run, at, n - 1);
      var w, e := at[n - 1], run[n - 1];
      WorldAlwaysOk(run, at, n - 1);
      if OnLock(w, e).Some? {
        DriversAreDisciplined(w, e);
        OneStricter(acts, OnLock(w, e).value);
        acts := acts + [OnLock(w, e).value];
      }
    }
  }

  // ---- nobody blocks for good ------------------------------------------------------------------

  /** A step that brings some context nearer to its end. */
  predicate Advances(e: Step) {
    match e
    case Outside(a) => Progress(a)
    case UseChain(_, enter) => !enter
    case _ => e.Ask? || e.Check? || e.Redeployed? || e.EndBody? || e.LetGo?
  }

  ghost predicate CanAdvance(w: World) {
    exists e :: Advances(e) && CanStep(w, e)
  }

  lemma {:induction false} Listed(keys: set<Key>) returns (order: seq<Key>)
    ensures KeysIn(order) == keys
    decreases |keys|
  {
    if keys == {} {
      order := [];
    } else {
      var k :| k in keys;
      var rest := Listed(keys - {k});
      order := rest + [k];
      assert forall j :: j in order <==> j in rest || j == k;
      assert forall j :: j in KeysIn(rest) <==> j in rest;
    }
  }

  /** A driver that is waiting for nothing has its next step before it. */
  lemma DriverAdvances(w: World, c: CtxId)
    requires WorldOk(w) && c in w.drivers && Works(w.sys, c)
    ensures CanAdvance(w)
  {
    var d := w.drivers[c];
    assert DriverOk(w.sys, c, d) && CtxOk(w.sys, c);
    match d.phase
    case Asking =>
      var order := Listed(d.keys);
      assert CanStep(w, Ask(c, order));
    case Acquiring => assert CanStep(w, Check(c));
    case InBody => BodyAdvances(w, c);
    case Finished => assert CanStep(w, Outside(Quit(c)));
    case Unsettled => assert CanStep(w, Outside(Quit(c)));
    case _ =>
      if w.sys.ctxs[c].stack != [] {
        TopCanGo(w.sys, c);
      }
      assert CanStep(w, LetGo(c));
  }

  lemma TopCanGo(s: Sys, c: CtxId)
    requires SysSafe(s) && Works(s, c) && !s.ctxs[c].inProvision && s.ctxs[c].stack != []
    ensures CanAct(s, ReleaseTop(c))
  {
    assert CtxOk(s, c) && s.ctxs[c].stack[|s.ctxs[c].stack| - 1] in s.ctxs[c].stack;
  }

  lemma BodyAdvances(w: World, c: CtxId)
    requires WorldOk(w) && IsIn(w, c, InBody) && Works(w.sys, c)
    ensures CanAdvance(w)
  {
    var x := w.sys.ctxs[c];
    assert DriverOk(w.sys, c, w.drivers[c]) && CtxOk(w.sys, c);
    if x.inProvision {
      assert CanStep(w, UseChain(c, false));
    } else if |x.stack| > 1 {
      TopCanGo(w.sys, c);
      assert CanStep(w, Redeployed(c));
    } else {
      assert CanStep(w, EndBody(c));
    }
  }

  /** No re-drive blocks for good, nor does anything beside it, as long as no create is misled: while some
      context has not ended, one can take a step of this world towards its end. */
  lemma RedrivesNeverStick(run: seq<Step>, at: seq<World>, n: nat, c: CtxId)
    requires IsRun(run, at) && n <= |run| && NeverMisled(run, at, n)
    requires Live(at[n].sys, c) && !at[n].sys.ctxs[c].mode.Ended?
    ensures CanAdvance(at[n])
  {
    var w := at[n];
    var acts := LockRun(run, at, n);
    WorldAlwaysOk(run, at, n);
    NeverStuck(acts, c);
    var a :| Progress(a) && CanAct(w.sys, a);
    if a.c in w.drivers && !a.Grant? && !a.GrantProvision? {
      DriverAdvances(w, a.c);
    } else {
      assert CanStep(w, Outside(a));
    }
  }

  /** A round that is abandoned leaves no trace: before each acquisition, and when the third has outgrown its
      keys too, the operation owns nothing and has changed nothing, and no operation acquires a fourth time. */
  lemma AbandonedRoundsLeaveNoTrace(run: seq<Step>, at: seq<World>, n: nat, c: CtxId)
    requires IsRun(run, at) && n <= |run| && c in at[n].drivers
    ensures var d := at[n].drivers[c];
            && 1 <= d.round <= 3 && (d.phase.Unsettled? ==> d.round == 3)
            && (d.phase.Asking? || d.phase.Unsettled? ==> OwnsNothing(at[n].sys, c) && Held(at[n].sys, c) == {} && d.edits == 0)
            && (d.phase.Acquiring? || d.phase.Outgrown? ==> d.edits == 0)
  {
    WorldAlwaysOk(run, at, n);
    var d := at[n].drivers[c];
    assert DriverOk(at[n].sys, c, d);
    if d.phase.Asking? || d.phase.Unsettled? {
      EmptyStackHoldsNothing(at[n].sys, c);
    }
  }
}

/** Branch and project teardown of src/engine.ts: whatever docker refuses or cannot answer, bytes go only
    from under containers proven gone, and a row goes only with everything it named. */
module Teardown {

  import RenameSaga

  datatype Presence = Present | Gone | Unknown

  datatype Remains = Remains(containers: set<string>, networks: set<string>, buckets: set<string>, dirs: set<string>)

  /** The box only lost things. */
  predicate Fewer(now: Remains, before: Remains) {
    && now.containers <= before.containers && now.networks <= before.networks
    && now.buckets <= before.buckets && now.dirs <= before.dirs
  }

  /** What this box runs and stores. Docker and the adapters may refuse, may fail after having done the
      work, or may not answer; what docker does answer is so. */
  class Box {
    var containers: set<string>
    var networks: set<string>
    var buckets: set<string>
    var dirs: set<string>
    /** The data directories each container has mounted. */
    const mounts: map<string, set<string>>
    /** Docker answers every question and does what it is asked. */
    const healthy: bool
    /** Containers that had their bytes removed under them. */
    ghost var torn: set<string>

    constructor (containers: set<string>, networks: set<string>, buckets: set<string>, dirs: set<string>, mounts: map<string, set<string>>, healthy: bool)
      ensures this.containers == containers && this.networks == networks && this.buckets == buckets && this.dirs == dirs
      ensures this.mounts == mounts && this.healthy == healthy && torn == {}
    {
      this.containers, this.networks, this.buckets, this.dirs := containers, networks, buckets, dirs;
      this.mounts, this.healthy := mounts, healthy;
      torn := {};
    }

    ghost function Left(): Remains
      reads this
    {
      Remains(containers, networks, buckets, dirs)
    }

    method ContainerPresence(container: string) returns (answer: Presence)
      ensures answer.Gone? ==> container !in containers
      ensures answer.Present? ==> container in containers
      ensures healthy ==> !answer.Unknown?
    {
      var answers: bool := *;
      answer := if !answers && !healthy then Unknown else if container in containers then Present else Gone;
    }

    /** One `docker ps -a` for many questions; None when docker could not answer. */
    method ContainerSnapshot() returns (answers: bool, names: set<string>)
      ensures answers ==> names == containers
      ensures healthy ==> answers
    {
      answers := *;
      answers := answers || healthy;
      names := containers;
    }

    /** An adapter's removal of containers: any of them may be gone afterwards, whatever it reports. */
    method Destroy(targets: set<string>) returns (ok: bool)
      modifies this`containers
      ensures containers <= old(containers) && old(containers) - targets <= containers
      ensures healthy ==> ok && containers == old(containers) - targets
    {
      ok := *;
      var taken: set<string> := *;
      if healthy {
        ok, taken := true, targets;
      }
      containers := containers - (taken * targets);
    }

    /** An adapter's success means the bucket is gone. */
    method DestroyBucket(bucket: string) returns (ok: bool)
      modifies this`buckets
      ensures buckets == old(buckets) || buckets == old(buckets) - {bucket}
      ensures ok ==> bucket !in buckets
      ensures healthy ==> ok
    {
      ok := *;
      ok := ok || healthy;
      var taken: bool := *;
      if ok || taken {
        buckets := buckets - {bucket};
      }
    }

    /** `docker network rm`: the removal's own error may say that there is no such network. */
    method NetworkRm(network: string) returns (ok: bool, saysMissing: bool)
      modifies this`networks
      ensures networks == old(networks) || networks == old(networks) - {network}
      ensures ok || saysMissing ==> network !in networks
      ensures healthy ==> ok
    {
      ok, saysMissing := *, *;
      ok := ok || healthy;
      if ok {
        networks := networks - {network};
      }
      saysMissing := saysMissing && network !in networks;
    }

    method NetworkState(network: string) returns (state: Presence)
      ensures state.Gone? ==> network !in networks
      ensures state.Present? ==> network in networks
    {
      var answers: bool := *;
      state := if !answers && !healthy then Unknown else if network in networks then Present else Gone;
    }

    method RemoveDir(root: string) returns (ok: bool)
      modifies this`dirs, this`torn
      ensures dirs == old(dirs) || dirs == old(dirs) - {root}
      ensures ok ==> root !in dirs
      ensures healthy ==> ok
      ensures torn == old(torn) + set c | c in containers && Writes(c, root)
    {
      ok := *;
      ok := ok || healthy;
      var taken: bool := *;
      if ok || taken {
        dirs := dirs - {root};
      }
      torn := torn + set c | c in containers && Writes(c, root);
    }

    predicate Writes(container: string, root: string) {
      container in mounts && root in mounts[container]
    }

    /** The live containers with one of the roots mounted. */
    ghost function Writers(roots: seq<string>): set<string>
      reads this`containers
    {
      set c | c in containers && exists k :: 0 <= k < |roots| && Writes(c, roots[k])
    }
  }

  /** The teardown summary; a project delete shares one over all its branches. */
  class Summary {
    var destroyed: nat
    var failed: nat
    var reasons: seq<string>

    constructor ()
      ensures destroyed == 0 && failed == 0 && reasons == []
    {
      destroyed, failed, reasons := 0, 0, [];
    }

    method Fail(why: string)
      modifies this
      ensures destroyed == old(destroyed) && failed == old(failed) + 1 && reasons == old(reasons) + [why]
    {
      failed := failed + 1;
      reasons := reasons + [why];
    }

    /** `count`. */
    method Count(ok: bool, what: string)
      modifies this
      ensures failed == old(failed) + (if ok then 0 else 1)
      ensures destroyed == old(destroyed) + (if ok then 1 else 0)
    {
      if ok {
        destroyed := destroyed + 1;
      } else {
        Fail(what);
      }
    }
  }

  // ---- rows ------------------------------------------------------------------------------------

  type BranchId = string

  datatype Service = Service(id: string, container: string)

  datatype Status = Ready | CleanupFailed

  datatype Row = Row(name: string, ref: string, apps: seq<Service>, dbs: seq<Service>, stores: seq<string>, managed: seq<Service>,
                     network: string, roots: seq<string>, isDefault: bool, status: Status)

  datatype ServiceKey = ServiceKey(branch: BranchId, id: string)

  datatype Secret = Secret(branch: string, name: string)

  /** The rows a project's deletes touch, and what the scheduler knows. */
  datatype State = State(project: bool, projectStatus: Status, rows: map<BranchId, Row>, gitBindings: map<string, BranchId>,
                         domains: map<string, BranchId>, secrets: set<Secret>, keys: set<ServiceKey>)

  function ContainersIn(ss: seq<Service>): set<string> {
    set s | s in ss :: s.container
  }

  function ContainersOf(row: Row): set<string> {
    ContainersIn(row.apps) + ContainersIn(row.dbs) + ContainersIn(row.managed)
  }

  /** How many of the services had a container before the demolition: what was never there counts for
      nothing. */
  function Standing(ss: seq<Service>, names: set<string>): nat {
    if ss == [] then 0 else Standing(ss[..|ss| - 1], names) + if ss[|ss| - 1].container in names then 1 else 0
  }

  /** What a demolition that goes well counts: the containers that stood, the buckets and the directories; one
      for the apps' removal where there are none; nothing for the network. */
  function Demolished(row: Row, names: set<string>): nat {
    (if row.apps == [] then 1 else Standing(row.apps, names)) + Standing(row.dbs, names) + |row.stores|
    + Standing(row.managed, names) + |row.roots|
  }

  function KeysOf(b: BranchId, row: Row): set<ServiceKey> {
    set s | s in row.apps + row.dbs + row.managed :: ServiceKey(b, s.id)
  }

  predicate Contains(text: string, part: string) {
    exists i :: 0 <= i <= |text| && part <= text[i..]
  }

  function AppPrefix(ref: string): string {
    "io-" + ref + "-app-"
  }

  /** What `docker ps` lists for an app of the branch: it matches a part of the name. */
  function Listed(containers: set<string>, ref: string): set<string> {
    set c | c in containers && Contains(c, AppPrefix(ref))
  }

  /** Apps are called after the branch's ref. */
  predicate AppsByRef(row: Row) {
    forall s :: s in row.apps ==> Contains(s.container, AppPrefix(row.ref))
  }

  /** Nothing the row named is left on the box. */
  predicate NothingLeft(left: Remains, row: Row) {
    && ContainersOf(row) !! left.containers
    && (forall x :: x in row.stores ==> x !in left.buckets)
    && row.network !in left.networks
    && (forall x :: x in row.roots ==> x !in left.dirs)
  }

  /** A clean demolition releases the branch's scheduler keys, hostnames and secrets. */
  function Released(st: State, b: BranchId, row: Row): State {
    st.(keys := st.keys - KeysOf(b, row),
        domains := map h | h in st.domains && st.domains[h] != b :: st.domains[h],
        secrets := set u | u in st.secrets && u.branch != (if b in st.rows then st.rows[b].name else row.name))
  }

  function RowDropped(st: State, b: BranchId): State {
    st.(rows := st.rows - {b}, gitBindings := map g | g in st.gitBindings && st.gitBindings[g] != b :: st.gitBindings[g])
  }

  function RowKept(st: State, b: BranchId): State {
    if b in st.rows then st.(rows := st.rows[b := st.rows[b].(status := CleanupFailed)]) else st
  }

  // ---- the program -----------------------------------------------------------------------------

  /** `removeContainer`: only the probe after the removal is evidence. */
  method RemoveContainer(box: Box, t: Summary, container: string, targets: set<string>, known: Presence) returns (gone: bool)
    modifies box`containers, t
    ensures box.containers <= old(box.containers) && old(box.containers) - targets <= box.containers
    ensures gone ==> container !in box.containers
    ensures t.failed == old(t.failed) + if gone then 0 else 1
    ensures t.destroyed == old(t.destroyed) + if gone && !known.Gone? then 1 else 0
    ensures box.healthy ==> box.containers == old(box.containers) - targets && (gone <==> container !in box.containers)
  {
    var _ := box.Destroy(targets);
    var state := box.ContainerPresence(container);
    if state.Gone? {
      if !known.Gone? {
        t.destroyed := t.destroyed + 1;
      }
      return true;
    }
    t.Fail(container);
    return false;
  }

  /** The loop over containers of one kind that each have a removal of their own. */
  method RemoveAll(box: Box, t: Summary, ss: seq<Service>, answers: bool, names: set<string>) returns (survivors: seq<string>)
    modifies box`containers, t
    ensures box.containers <= old(box.containers) && old(box.containers) - ContainersIn(ss) <= box.containers
    ensures t.failed == old(t.failed) + |survivors|
    ensures survivors == [] ==> ContainersIn(ss) !! box.containers
    ensures box.healthy ==> survivors == [] && box.containers == old(box.containers) - ContainersIn(ss)
    ensures box.healthy && answers ==> t.destroyed == old(t.destroyed) + Standing(ss, names)
  {
    survivors := [];
    var i := 0;
    while i < |ss|
      invariant 0 <= i <= |ss|
      invariant box.containers <= old(box.containers) && old(box.containers) - ContainersIn(ss) <= box.containers
      invariant t.failed == old(t.failed) + |survivors|
      invariant survivors == [] ==> forall j :: 0 <= j < i ==> ss[j].container !in box.containers
      invariant box.healthy ==> survivors == []
      invariant box.healthy && answers ==> t.destroyed == old(t.destroyed) + Standing(ss[..i], names)
    {
      var c := ss[i].container;
      assert c in ContainersIn(ss);
      assert ss[..i + 1][..i] == ss[..i];
      var known := if !answers then Unknown else if c in names then Present else Gone;
      var gone := RemoveContainer(box, t, c, {c}, known);
      if !gone {
        survivors := survivors + [c];
      }
      i := i + 1;
    }
    assert ss[..i] == ss;
  }

  /** The loop over a branch's apps. The first removal takes every container listed for the ref, and the
      later ones do nothing; each app is proved gone all the same. */
  method RemoveApps(box: Box, t: Summary, row: Row, answers: bool, names: set<string>) returns (survivors: seq<string>)
    modifies box`containers, t
    ensures box.containers <= old(box.containers) && old(box.containers) - Listed(old(box.containers), row.ref) <= box.containers
    ensures t.failed >= old(t.failed) + |survivors|
    ensures survivors == [] ==> ContainersIn(row.apps) !! box.containers
    ensures box.healthy ==> box.containers == old(box.containers) - Listed(old(box.containers), row.ref)
    ensures box.healthy && AppsByRef(row) ==> survivors == [] && t.failed == old(t.failed)
    ensures box.healthy && AppsByRef(row) && answers ==>
              t.destroyed == old(t.destroyed) + if row.apps == [] then 1 else Standing(row.apps, names)
  {
    survivors := [];
    var targets := Listed(box.containers, row.ref);
    if row.apps == [] {
      var ok := box.Destroy(targets);
      t.Count(ok, "");
      return;
    }
    ghost var before := box.containers;
    var i := 0;
    while i < |row.apps|
      invariant 0 <= i <= |row.apps|
      invariant box.containers <= before && before - Listed(before, row.ref) <= box.containers
      invariant t.failed == old(t.failed) + |survivors|
      invariant survivors == [] ==> forall j :: 0 <= j < i ==> row.apps[j].container !in box.containers
      invariant box.healthy ==> box.containers == if i == 0 then before else before - targets
      invariant box.healthy && AppsByRef(row) ==> survivors == []
      invariant box.healthy && AppsByRef(row) && answers ==> t.destroyed == old(t.destroyed) + Standing(row.apps[..i], names)
    {
      var c := row.apps[i].container;
      assert row.apps[..i + 1][..i] == row.apps[..i];
      var known := if !answers then Unknown else if c in names then Present else Gone;
      var gone := RemoveContainer(box, t, c, if i == 0 then targets else {}, known);
      assert row.apps[i] in row.apps;
      if !gone {
        survivors := survivors + [c];
      }
      i := i + 1;
    }
    assert row.apps[..i] == row.apps;
  }

  method RemoveBuckets(box: Box, t: Summary, stores: seq<string>)
    modifies box`buckets, t
    ensures box.buckets <= old(box.buckets)
    ensures t.failed >= old(t.failed)
    ensures t.failed == old(t.failed) ==> forall x :: x in stores ==> x !in box.buckets
    ensures box.healthy ==> t.failed == old(t.failed) && t.destroyed == old(t.destroyed) + |stores|
  {
    var i := 0;
    while i < |stores|
      invariant 0 <= i <= |stores| && box.buckets <= old(box.buckets) && t.failed >= old(t.failed)
      invariant t.failed == old(t.failed) ==> forall j :: 0 <= j < i ==> stores[j] !in box.buckets
      invariant box.healthy ==> t.failed == old(t.failed) && t.destroyed == old(t.destroyed) + i
    {
      var ok := box.DestroyBucket(stores[i]);
      t.Count(ok, stores[i]);
      i := i + 1;
    }
  }

  /** `removeNetwork` under its count: absence is established, never inferred from a probe that failed. */
  method RemoveNetwork(box: Box, t: Summary, network: string)
    modifies box`networks, t
    ensures box.networks == old(box.networks) || box.networks == old(box.networks) - {network}
    ensures t.failed == old(t.failed) || t.failed == old(t.failed) + 1
    ensures t.failed == old(t.failed) ==> network !in box.networks
    ensures t.destroyed == old(t.destroyed) && (box.healthy ==> t.failed == old(t.failed))
  {
    var ok, missing := box.NetworkRm(network);
    if !ok && !missing {
      var state := box.NetworkState(network);
      if !state.Gone? {
        t.Fail(network);
      }
    }
  }

  /** Whatever still has one of the roots mounted has its bytes taken from under it. */
  method RemoveDirs(box: Box, t: Summary, roots: seq<string>)
    modifies box`dirs, box`torn, t
    ensures box.dirs <= old(box.dirs) && box.torn == old(box.torn) + box.Writers(roots)
    ensures t.failed >= old(t.failed)
    ensures t.failed == old(t.failed) ==> forall x :: x in roots ==> x !in box.dirs
    ensures box.healthy ==> t.failed == old(t.failed) && t.destroyed == old(t.destroyed) + |roots|
  {
    var i := 0;
    while i < |roots|
      invariant 0 <= i <= |roots| && box.dirs <= old(box.dirs) && t.failed >= old(t.failed)
      invariant forall c :: c in box.torn <==> c in old(box.torn) || (c in box.containers && exists k :: 0 <= k < i && box.Writes(c, roots[k]))
      invariant t.failed == old(t.failed) ==> forall j :: 0 <= j < i ==> roots[j] !in box.dirs
      invariant box.healthy ==> t.failed == old(t.failed) && t.destroyed == old(t.destroyed) + i
    {
      var ok := box.RemoveDir(roots[i]);
      t.Count(ok, roots[i]);
      i := i + 1;
    }
  }

  /** A branch's bytes are mounted by its own containers only. */
  predicate OwnMounts(mounts: map<string, set<string>>, row: Row) {
    forall c, root :: c in mounts && root in mounts[c] && root in row.roots ==> c in ContainersOf(row)
  }

  /** A kept row differs from the row it was in its status only. */
  predicate SameRow(row: Row, was: Row) {
    row.(status := was.status) == was
  }

  predicate NothingClaimed(st: State, b: BranchId, row: Row) {
    && (forall s :: s in row.apps + row.dbs + row.managed ==> ServiceKey(b, s.id) !in st.keys)
    && (forall h :: h in st.domains ==> st.domains[h] != b)
    && (forall g :: g in st.gitBindings ==> st.gitBindings[g] != b)
    && (forall u :: u in st.secrets ==> u.branch != row.name)
  }

  ghost predicate ClaimsHold(st: State, known: map<BranchId, Row>) {
    && (forall b :: b in st.rows ==> b in known && SameRow(st.rows[b], known[b]))
    && (forall b :: b in known && b !in st.rows ==> NothingClaimed(st, b, known[b]))
    && (forall a, b :: a in known && b in known && a != b ==> known[a].name != known[b].name)
    && (st.rows != map[] ==> st.project)
  }

  lemma DropKeepsClaims(st: State, known: map<BranchId, Row>, b: BranchId)
    requires ClaimsHold(st, known) && b in st.rows
    ensures ClaimsHold(RowDropped(Released(st, b, st.rows[b]), b), known)
  {
    var s := RowDropped(Released(st, b, st.rows[b]), b);
    assert KeysOf(b, st.rows[b]) == KeysOf(b, known[b]);
    forall x | x in known && x !in s.rows ensures NothingClaimed(s, x, known[x]) {
      if x != b {
        assert NothingClaimed(st, x, known[x]);
      }
    }
  }

  lemma KeepKeepsClaims(st: State, known: map<BranchId, Row>, b: BranchId)
    requires ClaimsHold(st, known) && b in st.rows
    ensures ClaimsHold(RowKept(st, b), known)
  {
    forall x | x in known && x !in RowKept(st, b).rows ensures NothingClaimed(RowKept(st, b), x, known[x]) {
      assert NothingClaimed(st, x, known[x]);
    }
  }

  ghost predicate AllGone(left: Remains, st: State, known: map<BranchId, Row>) {
    forall b :: b in known && b !in st.rows ==> NothingLeft(left, known[b])
  }

  lemma StillAllGone(before: Remains, left: Remains, st: State, known: map<BranchId, Row>, b: BranchId, row: Row, gone: bool)
    requires AllGone(before, st, known) && Fewer(left, before) && b in known && SameRow(row, known[b])
    requires gone ==> NothingLeft(left, row)
    ensures AllGone(left, if gone then RowDropped(Released(st, b, row), b) else RowKept(st, b), known)
  {
    forall x | x in known && (x !in st.rows || (gone && x == b)) ensures NothingLeft(left, known[x]) {
      if x !in st.rows {
        assert NothingLeft(before, known[x]);
      }
    }
  }

  /** Which containers a demolition takes down: the row's own, and whatever is listed under its ref. */
  predicate Reaches(before: set<string>, row: Row, now: set<string>, healthy: bool) {
    && before - ContainersOf(row) - Listed(before, row.ref) <= now <= before
    && (healthy ==> now - ContainersOf(row) == before - ContainersOf(row) - Listed(before, row.ref))
    && (healthy && AppsByRef(row) ==> now == before - ContainersOf(row) - Listed(before, row.ref))
  }

  /** A demolition takes down no container that the row does not name if none but the row's is listed under
      its ref; and with a docker that does what it is asked, only if. */
  lemma OthersSurvive(before: set<string>, row: Row, now: set<string>, healthy: bool)
    requires Reaches(before, row, now, healthy)
    ensures Listed(before, row.ref) <= ContainersOf(row) ==> before - ContainersOf(row) <= now
    ensures healthy ==> (before - ContainersOf(row) <= now <==> Listed(before, row.ref) <= ContainersOf(row))
  {
    if healthy && before - ContainersOf(row) <= now {
      forall c | c in Listed(before, row.ref) ensures c in ContainersOf(row) {
        assert c in now - ContainersOf(row) ==> c in before - ContainersOf(row) - Listed(before, row.ref);
      }
    }
  }

  /** What a demolition that goes well leaves. */
  function Leaves(names: set<string>, row: Row): set<string> {
    names - ContainersOf(row) - Listed(names, row.ref)
  }

  /** What those of several branches leave, one after the other, and what they count. */
  function LeavesAll(names: set<string>, rows: map<BranchId, Row>, bs: seq<BranchId>): set<string>
    requires forall b :: b in bs ==> b in rows
  {
    if bs == [] then names else Leaves(LeavesAll(names, rows, bs[..|bs| - 1]), rows[bs[|bs| - 1]])
  }

  function DemolishedAll(names: set<string>, rows: map<BranchId, Row>, bs: seq<BranchId>): nat
    requires forall b :: b in bs ==> b in rows
  {
    if bs == [] then 0
    else
      var init := bs[..|bs| - 1];
      DemolishedAll(names, rows, init) + Demolished(rows[bs[|bs| - 1]], LeavesAll(names, rows, init))
  }

  /** The counter and the box after the branches `bs` have had theirs, from a docker that does what it is
      asked. */
  predicate AllWentWell(before: set<string>, rows: map<BranchId, Row>, bs: seq<BranchId>, now: set<string>, destroyed: int) {
    && (forall b :: b in bs ==> b in rows)
    && now == LeavesAll(before, rows, bs) && destroyed == DemolishedAll(before, rows, bs)
  }

  lemma OneMoreWentWell(before: set<string>, rows: map<BranchId, Row>, bs: seq<BranchId>, i: nat, mid: set<string>, destroyed: int)
    requires i < |bs| && AllWentWell(before, rows, bs[..i], mid, destroyed) && bs[i] in rows
    ensures AllWentWell(before, rows, bs[..i + 1], Leaves(mid, rows[bs[i]]), destroyed + Demolished(rows[bs[i]], mid))
  {
    assert bs[..i + 1][..i] == bs[..i];
  }

  /** Every branch calls its apps after its ref. */
  predicate AllByRef(rows: map<BranchId, Row>) {
    forall b :: b in rows ==> AppsByRef(rows[b])
  }

  predicate IsNamed(rows: map<BranchId, Row>, bs: set<BranchId>, c: string) {
    exists b :: b in bs && b in rows && c in ContainersOf(rows[b])
  }

  predicate UnderRef(rows: map<BranchId, Row>, bs: set<BranchId>, c: string) {
    exists b :: b in bs && b in rows && Contains(c, AppPrefix(rows[b].ref))
  }

  /** What the demolitions of several branches take down of what none of them names: nothing that is not
      listed under one of their refs, and with a docker that does what it is asked, everything that is. */
  ghost predicate ReachesAll(before: set<string>, rows: map<BranchId, Row>, bs: set<BranchId>, now: set<string>, healthy: bool) {
    && now <= before
    && forall c :: c in before && !IsNamed(rows, bs, c) ==>
         (!UnderRef(rows, bs, c) ==> c in now) && (healthy ==> (c in now <==> !UnderRef(rows, bs, c)))
  }

  lemma ReachesOneMore(before: set<string>, mid: set<string>, now: set<string>, rows: map<BranchId, Row>, bs: set<BranchId>, b: BranchId, healthy: bool)
    requires ReachesAll(before, rows, bs, mid, healthy) && b in rows && Reaches(mid, rows[b], now, healthy)
    ensures ReachesAll(before, rows, bs + {b}, now, healthy)
  {
    forall c | c in before && !IsNamed(rows, bs + {b}, c)
      ensures (!UnderRef(rows, bs + {b}, c) ==> c in now) && (healthy ==> (c in now <==> !UnderRef(rows, bs + {b}, c)))
    {
      OneMoreRef(rows, bs, b, c);
      assert c in Listed(mid, rows[b].ref) <==> c in mid && Contains(c, AppPrefix(rows[b].ref));
      assert c in mid ==> (c in now - ContainersOf(rows[b]) <==> c in now);
    }
  }

  lemma OneMoreRef(rows: map<BranchId, Row>, bs: set<BranchId>, b: BranchId, c: string)
    requires b in rows
    ensures IsNamed(rows, bs + {b}, c) <==> IsNamed(rows, bs, c) || c in ContainersOf(rows[b])
    ensures UnderRef(rows, bs + {b}, c) <==> UnderRef(rows, bs, c) || Contains(c, AppPrefix(rows[b].ref))
  {
    assert b in bs + {b};
  }

  /** A container that runs, has a root of the row mounted, and is none the row names. */
  predicate IsStranger(c: string, live: set<string>, mounts: map<string, set<string>>, row: Row) {
    c in live && c !in ContainersOf(row) && c in mounts && exists root :: root in row.roots && root in mounts[c]
  }

  lemma WritersAreStrangers(box: Box, row: Row)
    requires ContainersOf(row) !! box.containers
    ensures forall c :: c in box.Writers(row.roots) <==> IsStranger(c, box.containers, box.mounts, row)
  {
    forall c ensures c in box.Writers(row.roots) <==> IsStranger(c, box.containers, box.mounts, row) {
      if IsStranger(c, box.containers, box.mounts, row) {
        var root :| root in row.roots && root in box.mounts[c];
        var k :| 0 <= k < |row.roots| && row.roots[k] == root;
        assert box.Writes(c, row.roots[k]);
      }
    }
  }

  ghost predicate TornByOne(was: set<string>, live: set<string>, torn: set<string>, mounts: map<string, set<string>>, row: Row) {
    was <= torn && forall c :: c in torn && c !in was ==> IsStranger(c, live, mounts, row)
  }

  lemma OneMoreTorn(was: set<string>, live: set<string>, mid: set<string>, now: set<string>, torn: set<string>,
                    mounts: map<string, set<string>>, rows: map<BranchId, Row>, b: BranchId)
    requires TornOnlyStrangers(was, live, mid, mounts, rows) && b in rows && now <= live && TornByOne(mid, now, torn, mounts, rows[b])
    ensures TornOnlyStrangers(was, live, torn, mounts, rows)
  {
    forall c | c in torn && c !in was ensures exists a :: a in rows && IsStranger(c, live, mounts, rows[a]) {
      if c !in mid {
        assert IsStranger(c, now, mounts, rows[b]);
        assert IsStranger(c, live, mounts, rows[b]);
      }
    }
  }

  /** What was torn on the way were strangers to some row. */
  ghost predicate TornOnlyStrangers(was: set<string>, live: set<string>, torn: set<string>, mounts: map<string, set<string>>, rows: map<BranchId, Row>) {
    was <= torn && forall c :: c in torn && c !in was ==> exists b :: b in rows && IsStranger(c, live, mounts, rows[b])
  }

  /** With every branch's bytes mounted by its own containers alone, no delete takes bytes from under a
      container. */
  lemma OwnMountsAreSafe(was: set<string>, live: set<string>, torn: set<string>, mounts: map<string, set<string>>, rows: map<BranchId, Row>)
    requires TornOnlyStrangers(was, live, torn, mounts, rows) && forall b :: b in rows ==> OwnMounts(mounts, rows[b])
    ensures torn == was
  {
    forall b, c | b in rows ensures !IsStranger(c, live, mounts, rows[b]) {
      assert OwnMounts(mounts, rows[b]);
    }
  }

  datatype Outcome = NotFound | DefaultBranch | Deleted(summary: Summary)

  class Engine {
    const box: Box
    var state: State

    constructor (box: Box, state: State)
      ensures this.box == box && this.state == state
    {
      this.box, this.state := box, state;
    }

    /** `teardownBranch`, on the row as it stands under the branch's keys. `bytes` when it came to the
        directories: then every container the row names is gone, and what is torn is what else has one of
        its roots mounted. */
    method TeardownBranch(b: BranchId, row: Row, t: Summary) returns (ghost bytes: bool)
      modifies this`state, box, t
      ensures Fewer(box.Left(), old(box.Left()))
      ensures Reaches(old(box.containers), row, box.containers, box.healthy)
      ensures t.failed >= old(t.failed)
      ensures t.failed == old(t.failed) ==> bytes && NothingLeft(box.Left(), row) && state == Released(old(state), b, row)
      ensures t.failed > old(t.failed) ==> state == old(state)
      ensures bytes ==> ContainersOf(row) !! box.containers && box.torn == old(box.torn) + box.Writers(row.roots)
      ensures !bytes ==> box.dirs == old(box.dirs) && box.torn == old(box.torn)
      ensures box.healthy && AppsByRef(row) ==> t.failed == old(t.failed) && t.destroyed == old(t.destroyed) + Demolished(row, old(box.containers))
    {
      var failedBefore := t.failed;
      var answers, names := box.ContainerSnapshot();
      var survivors := RemoveApps(box, t, row, answers, names);
      assert survivors == [] ==> ContainersIn(row.apps) !! box.containers;
      var more := RemoveAll(box, t, row.dbs, answers, names);
      survivors := survivors + more;
      RemoveBuckets(box, t, row.stores);
      var detached: bool := *;
      if !detached && !box.healthy {
        t.Fail(row.network);
      }
      more := RemoveAll(box, t, row.managed, answers, names);
      survivors := survivors + more;
      RemoveNetwork(box, t, row.network);
      bytes := survivors == [];
      if survivors == [] {
        RemoveDirs(box, t, row.roots);
      }
      if t.failed != failedBefore {
        return;
      }
      state := Released(state, b, row);
    }

    /** The rows there ever were are `known`: each is still here, or nothing it named is left and every
        claim of its branch has been released with it; and while one is here so is its project. */
    ghost predicate NoOrphans(known: map<BranchId, Row>)
      reads this, box
    {
      ClaimsHold(state, known) && AllGone(box.Left(), state, known)
    }

    /** `destroyBranch` once its lock set has settled. */
    method DestroyBranch(b: BranchId, ghost known: map<BranchId, Row>) returns (outcome: Outcome)
      requires NoOrphans(known)
      modifies this`state, box
      ensures NoOrphans(known) && Fewer(box.Left(), old(box.Left()))
      ensures outcome.NotFound? <==> b !in old(state).rows
      ensures outcome.DefaultBranch? <==> b in old(state).rows && old(state).rows[b].isDefault
      ensures !outcome.Deleted? ==> state == old(state) && box.containers == old(box.containers) && box.dirs == old(box.dirs) && box.torn == old(box.torn)
      ensures outcome.Deleted? ==> Reaches(old(box.containers), old(state).rows[b], box.containers, box.healthy)
      ensures outcome.Deleted? && box.healthy ==>
                (old(box.containers) - ContainersOf(old(state).rows[b]) <= box.containers
                 <==> Listed(old(box.containers), old(state).rows[b].ref) <= ContainersOf(old(state).rows[b]))
      ensures outcome.Deleted? && outcome.summary.failed == 0 ==>
                && NothingLeft(box.Left(), old(state).rows[b]) && state == RowDropped(Released(old(state), b, old(state).rows[b]), b)
                && box.torn == old(box.torn) + box.Writers(old(state).rows[b].roots)
                && (box.torn == old(box.torn) <==> forall c :: IsStranger(c, box.containers, box.mounts, old(state).rows[b]) ==> c in old(box.torn))
      ensures outcome.Deleted? && outcome.summary.failed > 0 ==>
                state == RowKept(old(state), b) && (box.torn == old(box.torn) || box.torn == old(box.torn) + box.Writers(old(state).rows[b].roots))
      ensures outcome.Deleted? && box.healthy && AppsByRef(old(state).rows[b]) ==>
                outcome.summary.failed == 0 && outcome.summary.destroyed == Demolished(old(state).rows[b], old(box.containers))
    {
      if b !in state.rows {
        return NotFound;
      }
      if state.rows[b].isDefault {
        return DefaultBranch;
      }
      var t := new Summary();
      ghost var row := state.rows[b];
      var gone := DestroyOne(b, state.rows[b], t, known);
      if gone {
        WritersAreStrangers(box, row);
      }
      OthersSurvive(old(box.containers), row, box.containers, box.healthy);
      outcome := Deleted(t);
    }

    /** One branch, decided by its own share of a counter that a project delete shares among them. */
    method DestroyOne(b: BranchId, row: Row, t: Summary, ghost known: map<BranchId, Row>) returns (gone: bool)
      requires NoOrphans(known) && b in state.rows && state.rows[b] == row
      modifies this`state, box, t
      ensures NoOrphans(known) && Fewer(box.Left(), old(box.Left()))
      ensures Reaches(old(box.containers), row, box.containers, box.healthy)
      ensures t.failed >= old(t.failed) && (gone <==> t.failed == old(t.failed))
      ensures gone ==> NothingLeft(box.Left(), row) && box.torn == old(box.torn) + box.Writers(row.roots)
      ensures box.torn == old(box.torn) || box.torn == old(box.torn) + box.Writers(row.roots)
      ensures TornByOne(old(box.torn), old(box.containers), box.torn, box.mounts, row)
      ensures state == if gone then RowDropped(Released(old(state), b, row), b) else RowKept(old(state), b)
      ensures box.healthy && AppsByRef(row) ==> gone && t.destroyed == old(t.destroyed) + Demolished(row, old(box.containers))
    {
      var mark := t.failed;
      ghost var bytes := TeardownBranch(b, row, t);
      if bytes {
        WritersAreStrangers(box, row);
      }
      gone := t.failed - mark == 0;
      state := if gone then RowDropped(state, b) else RowKept(state, b);
      if gone {
        DropKeepsClaims(old(state), known, b);
      } else {
        KeepKeepsClaims(old(state), known, b);
      }
      StillAllGone(old(box.Left()), box.Left(), old(state), known, b, row, gone);
    }

    /** One turn of it: of the branches `first` had, those of `done` have had theirs. */
    method DestroyNext(b: BranchId, t: Summary, ghost known: map<BranchId, Row>, ghost first: State, ghost done: set<BranchId>, ghost dropped: set<BranchId>)
      returns (gone: bool)
      requires NoOrphans(known) && b in state.rows && Agree(first, state, done, dropped) && b in first.rows && b !in done && dropped <= done
      modifies this`state, box, t
      ensures NoOrphans(known) && Fewer(box.Left(), old(box.Left())) && TornByOne(old(box.torn), old(box.containers), box.torn, box.mounts, first.rows[b])
      ensures Reaches(old(box.containers), first.rows[b], box.containers, box.healthy)
      ensures t.failed >= old(t.failed) && (gone <==> t.failed == old(t.failed))
      ensures Agree(first, state, done + {b}, if gone then dropped + {b} else dropped) && state.project == old(state).project
      ensures box.healthy && AppsByRef(first.rows[b]) ==>
                && gone && box.containers == Leaves(old(box.containers), first.rows[b])
                && t.destroyed == old(t.destroyed) + Demolished(first.rows[b], old(box.containers))
    {
      assert state.rows[b] == first.rows[b];
      gone := DestroyOne(b, state.rows[b], t, known);
      if gone {
        DropAgrees(first, old(state), done, dropped, b);
      } else {
        KeepAgrees(first, old(state), done, dropped, b);
      }
    }

    /** How it stands when the branches of `done` have had theirs, `dropped` of them for good. */
    ghost predicate Swept(first: State, before: Remains, torn: set<string>, done: seq<BranchId>, t: Summary, counted: int,
                          known: map<BranchId, Row>, kept: bool, dropped: set<BranchId>)
      reads this, box, t
    {
      && NoOrphans(known) && Fewer(box.Left(), before)
      && TornOnlyStrangers(torn, before.containers, box.torn, box.mounts, first.rows)
      && ReachesAll(before.containers, first.rows, BranchesIn(done), box.containers, box.healthy)
      && dropped <= BranchesIn(done) && (kept <==> dropped != BranchesIn(done)) && (kept <==> t.failed > 0)
      && Agree(first, state, BranchesIn(done), dropped) && state.project == first.project
      && (box.healthy && AllByRef(first.rows) ==>
            !kept && AllWentWell(before.containers, first.rows, done, box.containers, t.destroyed - counted))
    }

    lemma NothingSwept(t: Summary, known: map<BranchId, Row>, none: seq<BranchId>)
      requires NoOrphans(known) && t.failed == 0 && none == []
      ensures Swept(state, box.Left(), box.torn, none, t, t.destroyed, known, false, {})
    {
    }

    /** One turn of the loop. */
    method DestroyTurn(live: seq<BranchId>, i: nat, t: Summary, ghost known: map<BranchId, Row>, ghost first: State, ghost before: Remains,
                       ghost torn: set<string>, ghost counted: int, kept: bool, ghost dropped: set<BranchId>)
      returns (keptNow: bool, ghost droppedNow: set<BranchId>)
      requires Distinct(live) && i < |live| && (forall b :: b in live ==> b in first.rows)
      requires Swept(first, before, torn, live[..i], t, counted, known, kept, dropped)
      modifies this`state, box, t
      ensures Swept(first, before, torn, live[..i + 1], t, counted, known, keptNow, droppedNow)
    {
      var b := live[i];
      OneMore(live, i);
      ghost var mid, now, count := box.torn, box.containers, t.destroyed;
      var gone := DestroyNext(b, t, known, first, BranchesIn(live[..i]), dropped);
      OneMoreTorn(torn, before.containers, mid, now, box.torn, box.mounts, first.rows, b);
      ReachesOneMore(before.containers, now, box.containers, first.rows, BranchesIn(live[..i]), b, box.healthy);
      if box.healthy && AllByRef(first.rows) {
        OneMoreWentWell(before.containers, first.rows, live, i, now, count - counted);
      }
      droppedNow := if gone then dropped + {b} else dropped;
      keptNow := kept || !gone;
    }

    /** The branches of a project delete, one by one on one counter. */
    method DestroyAll(live: seq<BranchId>, t: Summary, ghost known: map<BranchId, Row>) returns (kept: bool, ghost dropped: set<BranchId>)
      requires NoOrphans(known) && Distinct(live) && (forall b :: b in live <==> b in state.rows) && t.failed == 0
      modifies this`state, box, t
      ensures NoOrphans(known) && Fewer(box.Left(), old(box.Left()))
      ensures TornOnlyStrangers(old(box.torn), old(box.containers), box.torn, box.mounts, old(state).rows)
      ensures ReachesAll(old(box.containers), old(state).rows, BranchesIn(live), box.containers, box.healthy)
      ensures dropped <= BranchesIn(live) && (kept <==> dropped != BranchesIn(live)) && (kept <==> t.failed > 0)
      ensures Agree(old(state), state, BranchesIn(live), dropped) && state.project == old(state).project
      ensures box.healthy && AllByRef(old(state).rows) ==>
                !kept && AllWentWell(old(box.containers), old(state).rows, live, box.containers, t.destroyed - old(t.destroyed))
    {
      kept, dropped := false, {};
      var i := 0;
      ghost var first, before, torn, counted := state, box.Left(), box.torn, t.destroyed;
      NothingSwept(t, known, live[..0]);
      while i < |live|
        invariant 0 <= i <= |live|
        invariant Swept(first, before, torn, live[..i], t, counted, known, kept, dropped)
      {
        kept, dropped := DestroyTurn(live, i, t, known, first, before, torn, counted, kept, dropped);
        i := i + 1;
      }
      assert live[..i] == live;
    }

    /** `destroyProject` once its lock set has settled, over the branches in the order listed. */
    method DestroyProject(live: seq<BranchId>, ghost known: map<BranchId, Row>) returns (found: bool, t: Summary, ghost dropped: set<BranchId>)
      requires NoOrphans(known) && Distinct(live) && (forall b :: b in live <==> b in state.rows)
      modifies this`state, box
      ensures fresh(t)
      ensures found <==> old(state).project
      ensures !found ==> state == old(state) && box.containers == old(box.containers) && box.dirs == old(box.dirs) && box.torn == old(box.torn)
      ensures NoOrphans(known) && Fewer(box.Left(), old(box.Left()))
      ensures TornOnlyStrangers(old(box.torn), old(box.containers), box.torn, box.mounts, old(state).rows)
      ensures found ==> ReachesAll(old(box.containers), old(state).rows, BranchesIn(live), box.containers, box.healthy)
      ensures found ==> Agree(old(state), state, BranchesIn(live), dropped)
      ensures found ==> (t.failed == 0 <==> state.rows == map[]) && (state.project <==> state.rows != map[])
      ensures found && state.project ==> state.projectStatus == CleanupFailed
      ensures found && box.healthy && AllByRef(old(state).rows) ==>
                && t.failed == 0 && !state.project
                && AllWentWell(old(box.containers), old(state).rows, live, box.containers, t.destroyed)
    {
      t := new Summary();
      found := state.project;
      dropped := {};
      if !found {
        return;
      }
      var kept;
      kept, dropped := DestroyAll(live, t, known);
      assert state.rows.Keys == BranchesIn(live) - dropped;
      ProjectRowLast(old(state), state, known, BranchesIn(live), dropped, kept);
      state := WithProject(state, kept);
    }
  }

  // ---- where it goes wrong ---------------------------------------------------------------------

  function OneRow(b: BranchId, row: Row): State {
    State(true, Ready, map[b := row], map[], map[], {}, {})
  }

  /** What a failed rename of a managed database leaves (RenameSaga.SilentlyRenamed): the row names `from`,
      which is gone, and the container lives on as `to`. A delete then finds nothing to stop, takes the
      data from under it and drops the row. */
  method RenamedContainerIsTorn(b: BranchId, name: string, ref: string, id: string, c: RenameSaga.Carrier, network: string, root: string)
    returns (engine: Engine)
    requires c.from != c.to && !Contains(c.to, AppPrefix(ref))
    ensures var a := RenameSaga.Attempted(RenameSaga.Box({c.from}, [RenameSaga.Works, RenameSaga.FailedButHappened], []), [c]);
            a.outcome == RenameSaga.Failed([]) && engine.box.containers == a.docker.names
    ensures c.to in engine.box.containers && c.to in engine.box.torn && root !in engine.box.dirs && b !in engine.state.rows
  {
    RenameSaga.SilentlyRenamed(c);
    var row := Row(name, ref, [], [], [], [Service(id, c.from)], network, [root], false, Ready);
    var box := new Box({c.to}, {network}, {}, {root}, map[c.to := {root}], true);
    engine := new Engine(box, OneRow(b, row));
    ghost var known := map[b := row];
    assert SameRow(row, known[b]);
    var outcome := engine.DestroyBranch(b, known);
    assert row.managed[0] in row.managed && ContainersOf(row) == {c.from};
    assert Listed({c.to}, ref) == {};
    assert row.roots[0] == root && box.Writes(c.to, row.roots[0]);
    assert root in row.roots;
  }

  /** Two branches of one project, the ref of one beginning with the other's and `-app-`. Deleting the
      shorter takes down whatever the other runs, its database too, while its row stays. */
  method SiblingLosesItsDatabase(b: BranchId, x: BranchId, rowB: Row, rowX: Row, suffix: string, db: string) returns (engine: Engine)
    requires b != x && rowB.name != rowX.name && !rowB.isDefault && rowX.ref == rowB.ref + "-app-" + suffix && rowB.apps == []
    requires rowX.dbs == [Service("pg-" + db, "io-" + rowX.ref + "-pg-" + db)]
    ensures b !in engine.state.rows && x in engine.state.rows && engine.state.rows[x] == rowX
    ensures rowX.dbs[0].container !in engine.box.containers
  {
    var container := rowX.dbs[0].container;
    var box := new Box({container}, {}, {}, {}, map[], true);
    engine := new Engine(box, State(true, Ready, map[b := rowB, x := rowX], map[], map[], {}, {}));
    ghost var known := map[b := rowB, x := rowX];
    assert container == AppPrefix(rowB.ref) + suffix + "-pg-" + db;
    assert container[0..] == container && AppPrefix(rowB.ref) <= container[0..];
    assert Contains(container, AppPrefix(rowB.ref));
    var outcome := engine.DestroyBranch(b, known);
  }

  // ---- rows and claims, branch by branch -------------------------------------------------------

  function BranchesIn(live: seq<BranchId>): set<BranchId> {
    set b | b in live
  }

  predicate Distinct(bs: seq<BranchId>) {
    forall i, j :: 0 <= i < j < |bs| ==> bs[i] != bs[j]
  }

  lemma OneMore(live: seq<BranchId>, i: nat)
    requires Distinct(live) && i < |live|
    ensures live[i] !in BranchesIn(live[..i]) && BranchesIn(live[..i + 1]) == BranchesIn(live[..i]) + {live[i]}
  {
    assert live[..i + 1] == live[..i] + [live[i]];
  }

  predicate RowsAgree(st: State, s: State, done: set<BranchId>, dropped: set<BranchId>) {
    && s.rows.Keys == st.rows.Keys - dropped
    && forall b :: b in s.rows ==> s.rows[b] == if b in done then st.rows[b].(status := CleanupFailed) else st.rows[b]
  }

  ghost predicate KeysAgree(st: State, s: State, dropped: set<BranchId>) {
    forall k :: k in s.keys <==> k in st.keys && !(k.branch in dropped && k.branch in st.rows && k in KeysOf(k.branch, st.rows[k.branch]))
  }

  predicate NameOfDropped(st: State, dropped: set<BranchId>, name: string) {
    exists b :: b in dropped && b in st.rows && st.rows[b].name == name
  }

  ghost predicate ClaimsAgree(st: State, s: State, dropped: set<BranchId>) {
    && s.domains == (map h | h in st.domains && st.domains[h] !in dropped :: st.domains[h])
    && s.gitBindings == (map g | g in st.gitBindings && st.gitBindings[g] !in dropped :: st.gitBindings[g])
    && forall u :: u in s.secrets <==> u in st.secrets && !NameOfDropped(st, dropped, u.branch)
  }

  /** Row, scheduler keys, hostnames, bindings and secrets are decided together, branch by branch: they
      all went for a branch that was dropped and all stayed for one that was kept. */
  ghost predicate Agree(st: State, s: State, done: set<BranchId>, dropped: set<BranchId>) {
    && RowsAgree(st, s, done, dropped) && KeysAgree(st, s, dropped) && ClaimsAgree(st, s, dropped)
  }

  /** The project row outlives every branch row that was kept. */
  function WithProject(st: State, kept: bool): State {
    if kept then st.(projectStatus := CleanupFailed) else st.(project := false)
  }

  lemma ProjectRowLast(st: State, s: State, known: map<BranchId, Row>, done: set<BranchId>, dropped: set<BranchId>, kept: bool)
    requires Agree(st, s, done, dropped) && ClaimsHold(s, known) && (kept <==> s.rows.Keys != {})
    ensures Agree(st, WithProject(s, kept), done, dropped) && ClaimsHold(WithProject(s, kept), known)
  {
    var p := WithProject(s, kept);
    forall b | b in known && b !in p.rows ensures NothingClaimed(p, b, known[b]) {
      assert NothingClaimed(s, b, known[b]);
    }
  }

  lemma DropAgrees(st: State, s: State, done: set<BranchId>, dropped: set<BranchId>, b: BranchId)
    requires Agree(st, s, done, dropped) && b in st.rows && b !in done && b !in dropped
    ensures Agree(st, RowDropped(Released(s, b, st.rows[b]), b), done + {b}, dropped + {b})
  {
    assert forall name :: NameOfDropped(st, dropped + {b}, name) <==> NameOfDropped(st, dropped, name) || st.rows[b].name == name;
  }

  lemma KeepAgrees(st: State, s: State, done: set<BranchId>, dropped: set<BranchId>, b: BranchId)
    requires Agree(st, s, done, dropped) && b in st.rows && b !in dropped
    ensures Agree(st, RowKept(s, b), done + {b}, dropped)
  {
  }
}

/** The operation lock of src/scheduler.ts: a multi-key FIFO lock built from promise chains.

    Each acquisition is a ticket, numbered in the order the chains were extended. A key's chain is the
    sequence of tickets its promise settles after; an entry is dropped once its count reaches 0. */
module OpLock {

  type Key = string
  type TicketId = int

  datatype Phase = Queued | Running | Released

  datatype Ticket = Ticket(keys: seq<Key>, waits: set<TicketId>, phase: Phase)

  datatype OpEntry = OpEntry(chain: seq<TicketId>, count: int)

  datatype Lock = Lock(tickets: seq<Ticket>, ops: map<Key, OpEntry>)

  // ---- what the operations do ------------------------------------------------------------------

  function Chain(ops: map<Key, OpEntry>, key: Key): seq<TicketId> {
    if key in ops then ops[key].chain else []
  }

  function Count(ops: map<Key, OpEntry>, key: Key): int {
    if key in ops then ops[key].count else 0
  }

  predicate Distinct(keys: seq<Key>) {
    forall i, j :: 0 <= i < j < |keys| ==> keys[i] != keys[j]
  }

  /** The tickets a new acquisition of `keys` has to outwait. */
  function Ahead(ops: map<Key, OpEntry>, keys: seq<Key>): set<TicketId> {
    set k, u | k in keys && u in Chain(ops, k) :: u
  }

  lemma AheadSnoc(ops: map<Key, OpEntry>, keys: seq<Key>, key: Key)
    ensures Ahead(ops, keys + [key]) == Ahead(ops, keys) + (set u | u in Chain(ops, key))
  {
    forall u | u in Ahead(ops, keys) ensures u in Ahead(ops, keys + [key]) {
      var k :| k in keys && u in Chain(ops, k);
      assert k in keys + [key];
    }
    forall u | u in Chain(ops, key) ensures u in Ahead(ops, keys + [key]) {
      assert key in keys + [key];
    }
  }

  function Extended(ops: map<Key, OpEntry>, keys: seq<Key>, t: TicketId): map<Key, OpEntry> {
    map k | k in ops.Keys + (set k | k in keys) ::
      if k in keys then OpEntry(Chain(ops, k) + [t], Count(ops, k) + 1) else ops[k]
  }

  lemma ExtendSnoc(ops: map<Key, OpEntry>, keys: seq<Key>, key: Key, t: TicketId)
    requires key !in keys
    ensures var before := Extended(ops, keys, t);
            && Chain(before, key) == Chain(ops, key) && Count(before, key) == Count(ops, key)
            && Extended(ops, keys + [key], t) == before[key := OpEntry(Chain(ops, key) + [t], Count(ops, key) + 1)]
  {
  }

  function Retired(ops: map<Key, OpEntry>, keys: seq<Key>): map<Key, OpEntry> {
    map k | k in ops && !(k in keys && ops[k].count <= 1) ::
      if k in keys then OpEntry(ops[k].chain, ops[k].count - 1) else ops[k]
  }

  function Enqueued(l: Lock, need: seq<Key>): Lock {
    Lock(l.tickets + [Ticket(need, Ahead(l.ops, need), Queued)], Extended(l.ops, need, |l.tickets|))
  }

  predicate CanStart(l: Lock, t: TicketId) {
    && 0 <= t < |l.tickets|
    && l.tickets[t].phase.Queued?
    && forall u :: u in l.tickets[t].waits ==> !Unreleased(l, u)
  }

  function Started(l: Lock, t: TicketId): Lock
    requires CanStart(l, t)
  {
    l.(tickets := l.tickets[t := l.tickets[t].(phase := Running)])
  }

  predicate CanFinish(l: Lock, t: TicketId) {
    0 <= t < |l.tickets| && l.tickets[t].phase.Running?
  }

  function Finished(l: Lock, t: TicketId): Lock
    requires CanFinish(l, t)
  {
    Lock(l.tickets[t := l.tickets[t].(phase := Released)], Retired(l.ops, l.tickets[t].keys))
  }

  /** A new acquisition by a context that owns `inherited` names these keys, each once. */
  function Need(keys: seq<Key>, inherited: set<Key>): (need: seq<Key>)
    ensures Distinct(need)
    ensures forall k :: k in need <==> k in keys && k !in inherited
  {
    if keys == [] then []
    else
      var rest := Need(keys[..|keys| - 1], inherited);
      var last := keys[|keys| - 1];
      assert keys == keys[..|keys| - 1] + [last];
      if last in inherited || last in rest then rest else rest + [last]
  }

  // ---- the program -----------------------------------------------------------------------------

  class OperationLock {
    var ops: map<Key, OpEntry>
    var tickets: seq<Ticket>

    ghost function State(): Lock
      reads this
    {
      Lock(tickets, ops)
    }

    constructor ()
      ensures State() == Lock([], map[])
    {
      ops, tickets := map[], [];
    }

    /** `enqueue`: extends every named chain in one synchronous stretch. */
    method Enqueue(keys: seq<Key>) returns (t: TicketId)
      requires Distinct(keys)
      modifies this
      ensures t == |old(tickets)|
      ensures State() == Enqueued(old(State()), keys)
    {
      t := |tickets|;
      var waits: set<TicketId> := {};
      var i := 0;
      while i < |keys|
        invariant 0 <= i <= |keys|
        invariant tickets == old(tickets)
        invariant ops == Extended(old(ops), keys[..i], t)
        invariant waits == Ahead(old(ops), keys[..i])
      {
        var key := keys[i];
        assert key !in keys[..i] && keys[..i + 1] == keys[..i] + [key];
        ExtendSnoc(old(ops), keys[..i], key, t);
        AheadSnoc(old(ops), keys[..i], key);
        var prev := Chain(ops, key);
        waits := waits + (set u | u in prev);
        ops := ops[key := OpEntry(prev + [t], Count(ops, key) + 1)];
        i := i + 1;
      }
      assert keys[..i] == keys;
      tickets := tickets + [Ticket(keys, waits, Queued)];
    }

    /** The gate's `ready` settled: the body runs. */
    method Start(t: TicketId)
      requires CanStart(State(), t)
      modifies this
      ensures State() == Started(old(State()), t)
    {
      tickets := tickets[t := tickets[t].(phase := Running)];
    }

    method ReleaseKey(key: Key)
      modifies this`ops
      ensures ops == Retired(old(ops), [key])
    {
      if key in ops {
        var entry := ops[key];
        entry := entry.(count := entry.count - 1);
        ops := if entry.count <= 0 then ops - {key} else ops[key := entry];
      }
    }

    /** The `finally` of an acquisition: the gate opens and every key is given back. */
    method Finish(t: TicketId)
      requires CanFinish(State(), t) && Distinct(tickets[t].keys)
      modifies this
      ensures State() == Finished(old(State()), t)
    {
      var keys := tickets[t].keys;
      tickets := tickets[t := tickets[t].(phase := Released)];
      var i := 0;
      while i < |keys|
        invariant 0 <= i <= |keys|
        invariant tickets == old(tickets)[t := old(tickets)[t].(phase := Released)]
        invariant ops == Retired(old(ops), keys[..i])
      {
        assert keys[i] !in keys[..i];
        assert keys[..i + 1] == keys[..i] + [keys[i]];
        ReleaseKey(keys[i]);
        i := i + 1;
      }
      assert keys[..i] == keys;
    }

    /** `withOp`, up to the point where it would start waiting: a context that already owns every key
        takes no ticket at all. */
    method WithOp(keys: seq<Key>, inherited: set<Key>) returns (t: TicketId, reentrant: bool)
      modifies this
      ensures reentrant <==> forall k :: k in keys ==> k in inherited
      ensures reentrant ==> State() == old(State())
      ensures !reentrant ==> t == |old(tickets)| && State() == Enqueued(old(State()), Need(keys, inherited))
    {
      var need := Need(keys, inherited);
      t := 0;
      reentrant := |need| == 0;
      if reentrant {
        forall k | k in keys ensures k in inherited {
          assert !(k in need);
        }
      } else {
        assert need[0] in keys && need[0] !in inherited;
        t := Enqueue(need);
      }
    }

    /** `tryWithOp`: refuses, changing nothing, when any wanted key is held or queued for. */
    method TryWithOp(keys: seq<Key>, inherited: set<Key>) returns (refused: bool, t: TicketId, reentrant: bool)
      modifies this
      ensures refused <==> exists k :: k in keys && k !in inherited && Count(old(ops), k) > 0
      ensures refused ==> State() == old(State())
      ensures !refused ==> (reentrant <==> forall k :: k in keys ==> k in inherited)
      ensures !refused && reentrant ==> State() == old(State())
      ensures !refused && !reentrant ==>
                t == |old(tickets)| && State() == Enqueued(old(State()), Need(keys, inherited))
    {
      var need := Need(keys, inherited);
      t, reentrant, refused := 0, false, exists k :: k in need && Count(ops, k) > 0;
      if refused {
        var k :| k in need && Count(ops, k) > 0;
        assert k in keys && k !in inherited;
      } else {
        t, reentrant := WithOp(keys, inherited);
      }
    }
  }

  // ---- every run -------------------------------------------------------------------------------

  datatype Event = Acquire(need: seq<Key>) | Begin(t: TicketId) | End(t: TicketId)

  predicate Enabled(l: Lock, e: Event) {
    match e
    case Acquire(need) => Distinct(need) && need != []
    case Begin(t) => CanStart(l, t)
    case End(t) => CanFinish(l, t)
  }

  function Step(l: Lock, e: Event): Lock
    requires Enabled(l, e)
  {
    match e
    case Acquire(need) => Enqueued(l, need)
    case Begin(t) => Started(l, t)
    case End(t) => Finished(l, t)
  }

  const Idle := Lock([], map[])

  /** Every event of the run could happen where it happens, from the idle lock on. */
  predicate Legal(run: seq<Event>)
    decreases |run|, 0
  {
    run == [] || (Legal(run[..|run| - 1]) && Enabled(After(run[..|run| - 1]), run[|run| - 1]))
  }

  function After(run: seq<Event>): Lock
    requires Legal(run)
    decreases |run|, 1
  {
    if run == [] then Idle else Step(After(run[..|run| - 1]), run[|run| - 1])
  }

  predicate Names(l: Lock, t: TicketId, key: Key) {
    0 <= t < |l.tickets| && key in l.tickets[t].keys
  }

  predicate Unreleased(l: Lock, t: TicketId) {
    0 <= t < |l.tickets| && !l.tickets[t].phase.Released?
  }

  /** The unreleased tickets that name a key. */
  function Holders(l: Lock, key: Key): set<TicketId> {
    set t | 0 <= t < |l.tickets| && Names(l, t, key) && Unreleased(l, t)
  }

  /** The entry of a key counts its unreleased tickets, and is there exactly while there are some. */
  ghost predicate CountsHolders(l: Lock) {
    && (forall k :: k in l.ops ==> l.ops[k].count == |Holders(l, k)| > 0)
    && (forall k, t :: Names(l, t, k) && Unreleased(l, t) ==> k in l.ops && t in l.ops[k].chain)
    && (forall k, t :: k in l.ops && t in l.ops[k].chain ==> Names(l, t, k))
  }

  /** Nobody overtakes: an earlier unreleased ticket on a shared key is waited for. */
  ghost predicate NoOvertaking(l: Lock) {
    && (forall t, u :: 0 <= t < |l.tickets| && u in l.tickets[t].waits ==> 0 <= u < t)
    && (forall k, t, u :: u < t && Names(l, t, k) && Names(l, u, k) && Unreleased(l, u) ==> u in l.tickets[t].waits)
    && (forall t, u :: 0 <= t < |l.tickets| && !l.tickets[t].phase.Queued? && u in l.tickets[t].waits ==> !Unreleased(l, u))
  }

  ghost predicate Inv(l: Lock) {
    && (forall t :: 0 <= t < |l.tickets| ==> Distinct(l.tickets[t].keys))
    && CountsHolders(l)
    && NoOvertaking(l)
  }

  lemma EmptyWithoutEntry(l: Lock, k: Key)
    requires CountsHolders(l)
    ensures k !in l.ops <==> Holders(l, k) == {}
  {
    assert forall t :: t in Holders(l, k) ==> Names(l, t, k) && Unreleased(l, t);
  }

  /** What a synchronous extension does, and nothing else. */
  ghost predicate Extends(l: Lock, n: Lock, need: seq<Key>) {
    var t := |l.tickets|;
    && |n.tickets| == t + 1
    && n.tickets[..t] == l.tickets
    && n.tickets[t] == Ticket(need, Ahead(l.ops, need), Queued)
    && (forall k :: k in n.ops <==> k in l.ops || k in need)
    && (forall k :: k in need ==> n.ops[k].chain == Chain(l.ops, k) + [t] && n.ops[k].count == Count(l.ops, k) + 1)
    && (forall k :: k in l.ops && k !in need ==> n.ops[k] == l.ops[k])
  }

  lemma OlderTickets(l: Lock, n: Lock, need: seq<Key>)
    requires Extends(l, n, need)
    ensures forall t, k :: t != |l.tickets| ==> (Names(n, t, k) <==> Names(l, t, k))
    ensures forall t :: t != |l.tickets| ==> (Unreleased(n, t) <==> Unreleased(l, t))
  {
    assert forall t :: 0 <= t < |l.tickets| ==> n.tickets[t] == n.tickets[..|l.tickets|][t];
  }

  lemma HoldersAfterEnqueue(l: Lock, n: Lock, need: seq<Key>, k: Key)
    requires Extends(l, n, need)
    ensures Holders(n, k) == if k in need then Holders(l, k) + {|l.tickets|} else Holders(l, k)
    ensures |l.tickets| !in Holders(l, k)
  {
    OlderTickets(l, n, need);
  }

  lemma EnqueueKeepsCounts(l: Lock, n: Lock, need: seq<Key>)
    requires CountsHolders(l) && Extends(l, n, need)
    ensures CountsHolders(n)
  {
    forall k | k in n.ops ensures n.ops[k].count == |Holders(n, k)| > 0 {
      EmptyWithoutEntry(l, k);
      HoldersAfterEnqueue(l, n, need, k);
    }
    OlderTickets(l, n, need);
    forall k, t | Names(n, t, k) && Unreleased(n, t) ensures k in n.ops && t in n.ops[k].chain {
      if t != |l.tickets| {
        assert Names(l, t, k) && Unreleased(l, t);
      }
    }
    forall k, t | k in n.ops && t in n.ops[k].chain ensures Names(n, t, k) {
      assert k in l.ops && t in l.ops[k].chain ==> Names(l, t, k);
    }
  }

  lemma EnqueueKeepsOrder(l: Lock, n: Lock, need: seq<Key>)
    requires NoOvertaking(l) && CountsHolders(l) && Extends(l, n, need)
    ensures NoOvertaking(n)
  {
    OlderTickets(l, n, need);
    assert forall t :: 0 <= t < |l.tickets| ==> n.tickets[t] == n.tickets[..|l.tickets|][t];
    forall t, u | 0 <= t < |n.tickets| && u in n.tickets[t].waits ensures 0 <= u < t {
      if t == |l.tickets| {
        var k :| k in need && u in Chain(l.ops, k);
        assert Names(l, u, k);
      }
    }
    forall k, t, u | u < t && Names(n, t, k) && Names(n, u, k) && Unreleased(n, u)
      ensures u in n.tickets[t].waits
    {
      assert Names(l, u, k) && Unreleased(l, u);
      if t == |l.tickets| {
        assert u in Chain(l.ops, k);
      } else {
        assert Names(l, t, k);
      }
    }
  }

  lemma EnqueueKeepsInv(l: Lock, need: seq<Key>)
    requires Inv(l) && Distinct(need)
    ensures Inv(Enqueued(l, need))
  {
    var n := Enqueued(l, need);
    EnqueueKeepsCounts(l, n, need);
    EnqueueKeepsOrder(l, n, need);
  }

  lemma HoldersAfterFinish(l: Lock, t: TicketId, k: Key)
    requires CanFinish(l, t)
    ensures Holders(Finished(l, t), k) == Holders(l, k) - {t}
    ensures k in l.tickets[t].keys <==> t in Holders(l, k)
    ensures forall u :: Names(Finished(l, t), u, k) <==> Names(l, u, k)
  {
    var n := Finished(l, t);
    assert Names(l, t, k) <==> k in l.tickets[t].keys;
    forall u ensures Names(n, u, k) <==> Names(l, u, k) {}
    forall u ensures u in Holders(n, k) <==> u in Holders(l, k) - {t} {}
  }

  lemma EntryAfterFinish(l: Lock, t: TicketId, k: Key)
    requires CanFinish(l, t) && CountsHolders(l) && k in l.ops
    ensures var n := Finished(l, t);
            if Holders(n, k) == {} then k !in n.ops
            else k in n.ops && n.ops[k].count == |Holders(n, k)| && n.ops[k].chain == l.ops[k].chain
  {
    HoldersAfterFinish(l, t, k);
    var before, now := Holders(l, k), Holders(Finished(l, t), k);
    assert l.ops[k].count == |before| > 0;
    assert |now| == |before| - (if t in before then 1 else 0);
    assert now == {} <==> |now| == 0;
  }

  lemma FinishKeepsCounts(l: Lock, t: TicketId)
    requires CountsHolders(l) && CanFinish(l, t)
    ensures CountsHolders(Finished(l, t))
  {
    var n := Finished(l, t);
    forall k | k in n.ops ensures n.ops[k].count == |Holders(n, k)| > 0 {
      EntryAfterFinish(l, t, k);
    }
    forall k, u | Names(n, u, k) && Unreleased(n, u) ensures k in n.ops && u in n.ops[k].chain {
      HoldersAfterFinish(l, t, k);
      assert Names(l, u, k) && Unreleased(l, u) && u in Holders(n, k);
      EntryAfterFinish(l, t, k);
    }
    forall k, u | k in n.ops && u in n.ops[k].chain ensures Names(n, u, k) {
      HoldersAfterFinish(l, t, k);
      EntryAfterFinish(l, t, k);
    }
  }

  lemma FinishKeepsInv(l: Lock, t: TicketId)
    requires Inv(l) && CanFinish(l, t)
    ensures Inv(Finished(l, t))
  {
    var n := Finished(l, t);
    FinishKeepsCounts(l, t);
    assert forall u, k :: Names(n, u, k) <==> Names(l, u, k);
    assert forall u :: Unreleased(n, u) <==> Unreleased(l, u) && u != t;
  }

  lemma StartKeepsInv(l: Lock, t: TicketId)
    requires Inv(l) && CanStart(l, t)
    ensures Inv(Started(l, t))
  {
    var n := Started(l, t);
    assert forall u, k :: Names(n, u, k) <==> Names(l, u, k);
    assert forall u :: Unreleased(n, u) <==> Unreleased(l, u);
    forall k ensures Holders(n, k) == Holders(l, k) {
    }
  }

  lemma {:induction false} ReachableInv(run: seq<Event>)
    requires Legal(run)
    ensures Inv(After(run))
    decreases |run|
  {
    if run != [] {
      var before := run[..|run| - 1];
      ReachableInv(before);
      match run[|run| - 1]
      case Acquire(need) => EnqueueKeepsInv(After(before), need);
      case Begin(t) => StartKeepsInv(After(before), t);
      case End(t) => FinishKeepsInv(After(before), t);
    }
  }

  lemma InOrder(l: Lock, t: TicketId, u: TicketId, key: Key)
    requires NoOvertaking(l) && u < t && Names(l, t, key) && Names(l, u, key) && !l.tickets[t].phase.Queued?
    ensures l.tickets[u].phase.Released?
  {
    assert u in l.tickets[t].waits || !Unreleased(l, u);
    assert !Unreleased(l, u);
  }

  /** In every reachable state at most one ticket runs with a given key, the tickets on a key started
      in the order they were taken, and each entry counts exactly the unreleased tickets on its key,
      so dropping it at 0 forgets nobody. */
  lemma MutualExclusionInOrder(run: seq<Event>, key: Key)
    requires Legal(run)
    ensures var l := After(run);
            && (forall t, u | Names(l, t, key) && Names(l, u, key)
                              && l.tickets[t].phase.Running? && l.tickets[u].phase.Running? :: t == u)
            && (forall t, u | u < t && Names(l, t, key) && Names(l, u, key) && !l.tickets[t].phase.Queued? ::
                  l.tickets[u].phase.Released?)
            && Count(l.ops, key) == |Holders(l, key)|
            && (key !in l.ops <==> Holders(l, key) == {})
  {
    var l := After(run);
    ReachableInv(run);
    EmptyWithoutEntry(l, key);
    forall t, u | u < t && Names(l, t, key) && Names(l, u, key) && !l.tickets[t].phase.Queued?
      ensures l.tickets[u].phase.Released?
    {
      InOrder(l, t, u, key);
    }
  }

  ghost predicate Share(l: Lock, t: TicketId, u: TicketId) {
    exists k :: Names(l, t, k) && Names(l, u, k)
  }

  ghost predicate WaitsShare(l: Lock) {
    forall t, u :: 0 <= t < |l.tickets| && u in l.tickets[t].waits ==> Share(l, t, u)
  }

  lemma SameKeysShare(m: Lock, l: Lock)
    requires WaitsShare(m) && |l.tickets| == |m.tickets|
    requires forall t :: 0 <= t < |m.tickets| ==> l.tickets[t].keys == m.tickets[t].keys && l.tickets[t].waits == m.tickets[t].waits
    ensures WaitsShare(l)
  {
    forall t, u | 0 <= t < |l.tickets| && u in l.tickets[t].waits ensures Share(l, t, u) {
      assert u in m.tickets[t].waits;
      var k :| Names(m, t, k) && Names(m, u, k);
      assert Names(l, t, k) && Names(l, u, k);
    }
  }

  lemma EnqueueWaitsShare(l: Lock, n: Lock, need: seq<Key>)
    requires WaitsShare(l) && CountsHolders(l) && Extends(l, n, need)
    ensures WaitsShare(n)
  {
    OlderTickets(l, n, need);
    forall t, u | 0 <= t < |n.tickets| && u in n.tickets[t].waits ensures Share(n, t, u) {
      if t < |l.tickets| {
        assert n.tickets[t] == n.tickets[..|l.tickets|][t];
        assert Share(l, t, u);
        var k :| Names(l, t, k) && Names(l, u, k);
        assert Names(n, t, k) && Names(n, u, k);
      } else {
        var k :| k in need && u in Chain(l.ops, k);
        assert Names(l, u, k);
        assert Names(n, t, k) && Names(n, u, k);
      }
    }
  }

  lemma {:induction false} WaitsShareAKey(run: seq<Event>)
    requires Legal(run)
    ensures WaitsShare(After(run))
    decreases |run|
  {
    if run != [] {
      var before := run[..|run| - 1];
      WaitsShareAKey(before);
      ReachableInv(before);
      match run[|run| - 1]
      case Acquire(need) => EnqueueWaitsShare(After(before), After(run), need);
      case Begin(t) => SameKeysShare(After(before), After(run));
      case End(t) => SameKeysShare(After(before), After(run));
    }
  }

  /** A ticket is held up by exactly the earlier unreleased tickets that share a key with it. */
  lemma HeldUpBySharersOnly(run: seq<Event>, t: TicketId)
    requires Legal(run) && 0 <= t < |After(run).tickets| && After(run).tickets[t].phase.Queued?
    ensures var l := After(run);
            CanStart(l, t) <==> forall u :: u < t && Share(l, t, u) ==> !Unreleased(l, u)
  {
    var l := After(run);
    ReachableInv(run);
    WaitsShareAKey(run);
    if CanStart(l, t) {
      forall u | u < t && Share(l, t, u) ensures !Unreleased(l, u) {
        var k :| Names(l, t, k) && Names(l, u, k);
      }
    }
  }

  /** `tryWithOp` never waits: an acquisition it lets through can start at once. */
  lemma TryNeverWaits(run: seq<Event>, need: seq<Key>)
    requires Legal(run) && Distinct(need)
    requires forall k :: k in need ==> Count(After(run).ops, k) <= 0
    ensures var l := After(run);
            Enqueued(l, need).tickets[|l.tickets|].waits == {} && CanStart(Enqueued(l, need), |l.tickets|)
  {
    ReachableInv(run);
    assert forall k :: k in need ==> k !in After(run).ops;
  }

  /** The order the keys are listed in changes neither what a ticket waits for nor any chain: one
      synchronous stretch extends them all, so the sorting in `withOp` carries no weight. */
  lemma KeyOrderIrrelevant(l: Lock, a: seq<Key>, b: seq<Key>)
    requires forall k :: k in a <==> k in b
    ensures Extended(l.ops, a, |l.tickets|) == Extended(l.ops, b, |l.tickets|)
    ensures Ahead(l.ops, a) == Ahead(l.ops, b)
  {
    var x := Extended(l.ops, a, |l.tickets|);
    var y := Extended(l.ops, b, |l.tickets|);
    assert x.Keys == y.Keys;
  }
}

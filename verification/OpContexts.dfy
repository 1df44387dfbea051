/** The contexts that take the operation lock, and the engine-wide provision chain they take after it
    (src/scheduler.ts:264-288, src/engine.ts:333-338).

    A context blocks on keys only when it owns none; while it owns some it re-enters them, tries, or
    takes the provision chain. Under that discipline no state is ever stuck. */
module OpContexts {
  import opened OpLock

  type CtxId = int

  datatype Mode = Working | AwaitingKeys(t: TicketId) | AwaitingProvision | Ended

  /** `stack` holds the granted acquisitions, innermost last; `depth` is its height on entering the
      provision chain, which has to be left before anything taken earlier is released. */
  datatype Ctx = Ctx(stack: seq<TicketId>, mode: Mode, inProvision: bool, depth: nat)

  datatype Sys = Sys(lock: Lock, owner: seq<CtxId>, ctxs: seq<Ctx>, provision: seq<CtxId>)

  const Empty := Sys(Lock([], map[]), [], [], [])

  datatype Action =
    | Arrive
    | Acquire(c: CtxId, keys: seq<Key>)
    | Try(c: CtxId, keys: seq<Key>)
    | Grant(c: CtxId)
    | ReleaseTop(c: CtxId)
    | EnterProvision(c: CtxId)
    | GrantProvision(c: CtxId)
    | LeaveProvision(c: CtxId)
    | Quit(c: CtxId)

  predicate Live(s: Sys, c: CtxId) {
    0 <= c < |s.ctxs|
  }

  predicate Works(s: Sys, c: CtxId) {
    Live(s, c) && s.ctxs[c].mode.Working?
  }

  /** The keys a context owns: what `owned.getStore()` answers inside it. */
  function Held(s: Sys, c: CtxId): set<Key>
    requires Live(s, c)
  {
    set t, k | t in s.ctxs[c].stack && 0 <= t < |s.lock.tickets| && k in s.lock.tickets[t].keys :: k
  }

  predicate Busy(s: Sys, need: seq<Key>) {
    exists k :: k in need && Count(s.lock.ops, k) > 0
  }

  function Waiting(s: Sys, c: CtxId, need: seq<Key>): Sys
    requires Live(s, c)
  {
    s.(lock := Enqueued(s.lock, need), owner := s.owner + [c],
       ctxs := s.ctxs[c := s.ctxs[c].(mode := AwaitingKeys(|s.lock.tickets|))])
  }

  predicate CanAct(s: Sys, a: Action) {
    match a
    case Arrive => true
    case Acquire(c, keys) => Works(s, c)
    case Try(c, keys) => Works(s, c)
    case Grant(c) => Live(s, c) && s.ctxs[c].mode.AwaitingKeys? && CanStart(s.lock, s.ctxs[c].mode.t)
    case ReleaseTop(c) =>
      Works(s, c) && s.ctxs[c].stack != [] && (s.ctxs[c].inProvision ==> |s.ctxs[c].stack| > s.ctxs[c].depth)
      && CanFinish(s.lock, s.ctxs[c].stack[|s.ctxs[c].stack| - 1])
    case EnterProvision(c) => Works(s, c)
    case GrantProvision(c) => Live(s, c) && s.ctxs[c].mode.AwaitingProvision? && s.provision != [] && s.provision[0] == c
    case LeaveProvision(c) =>
      Works(s, c) && s.ctxs[c].inProvision && |s.ctxs[c].stack| <= s.ctxs[c].depth && s.provision != []
    case Quit(c) => Works(s, c) && s.ctxs[c].stack == [] && !s.ctxs[c].inProvision
  }

  function Act(s: Sys, a: Action): Sys
    requires CanAct(s, a)
  {
    match a
    case Arrive => s.(ctxs := s.ctxs + [Ctx([], Working, false, 0)])
    case Acquire(c, keys) =>
      var need := Need(keys, Held(s, c));
      if need == [] then s else Waiting(s, c, need)
    case Try(c, keys) =>
      var need := Need(keys, Held(s, c));
      if need == [] || Busy(s, need) then s else Waiting(s, c, need)
    case Grant(c) =>
      var x := s.ctxs[c];
      s.(lock := Started(s.lock, x.mode.t), ctxs := s.ctxs[c := x.(stack := x.stack + [x.mode.t], mode := Working)])
    case ReleaseTop(c) =>
      var x := s.ctxs[c];
      var top := |x.stack| - 1;
      s.(lock := Finished(s.lock, x.stack[top]), ctxs := s.ctxs[c := x.(stack := x.stack[..top])])
    case EnterProvision(c) =>
      s.(provision := s.provision + [c], ctxs := s.ctxs[c := s.ctxs[c].(mode := AwaitingProvision)])
    case GrantProvision(c) =>
      var x := s.ctxs[c];
      s.(ctxs := s.ctxs[c := x.(mode := Working, inProvision := true, depth := |x.stack|)])
    case LeaveProvision(c) =>
      s.(provision := s.provision[1..], ctxs := s.ctxs[c := s.ctxs[c].(inProvision := false)])
    case Quit(c) => s.(ctxs := s.ctxs[c := s.ctxs[c].(mode := Ended)])
  }

  /** What the engine owes the lock: a blocking acquisition of anything new is the context's only one,
      and the provision chain is not entered twice. */
  predicate Disciplined(s: Sys, a: Action)
    requires CanAct(s, a)
  {
    match a
    case Acquire(c, keys) =>
      Need(keys, Held(s, c)) == [] || (s.ctxs[c].stack == [] && !s.ctxs[c].inProvision)
    case EnterProvision(c) => !s.ctxs[c].inProvision
    case _ => true
  }

  /** Every action could happen where it happens; with `strict`, each one keeps the discipline. */
  predicate Legal(run: seq<Action>, strict: bool)
    decreases |run|, 0
  {
    run == [] ||
    (var before := run[..|run| - 1];
     Legal(before, strict) && CanAct(After(before, strict), run[|run| - 1])
     && (strict ==> Disciplined(After(before, strict), run[|run| - 1])))
  }

  function After(run: seq<Action>, strict: bool): Sys
    requires Legal(run, strict)
    decreases |run|, 1
  {
    if run == [] then Empty else Act(After(run[..|run| - 1], strict), run[|run| - 1])
  }

  // ---- what every disciplined step keeps -------------------------------------------------------

  /** An unreleased ticket belongs to one context: a granted one is on its stack, a queued one is what
      it waits for. */
  ghost predicate TicketOk(s: Sys, t: TicketId)
    requires 0 <= t < |s.lock.tickets| == |s.owner|
  {
    && Live(s, s.owner[t])
    && (s.lock.tickets[t].phase.Running? ==> t in s.ctxs[s.owner[t]].stack)
    && (s.lock.tickets[t].phase.Queued? ==> s.ctxs[s.owner[t]].mode == AwaitingKeys(t))
  }

  ghost predicate StackOk(s: Sys, c: CtxId)
    requires Live(s, c) && |s.lock.tickets| == |s.owner|
  {
    var x := s.ctxs[c];
    && (forall t :: t in x.stack ==> 0 <= t < |s.owner| && s.owner[t] == c && s.lock.tickets[t].phase.Running?)
    && (forall i, j :: 0 <= i < j < |x.stack| ==> x.stack[i] != x.stack[j])
  }

  ghost predicate CtxOk(s: Sys, c: CtxId)
    requires Live(s, c) && |s.lock.tickets| == |s.owner|
  {
    var x := s.ctxs[c];
    && StackOk(s, c)
    && (x.mode.AwaitingKeys? ==> 0 <= x.mode.t < |s.owner| && s.owner[x.mode.t] == c && s.lock.tickets[x.mode.t].phase.Queued?)
    && (x.mode.Ended? ==> x.stack == [] && !x.inProvision)
    && (x.mode.AwaitingProvision? ==> !x.inProvision)
    && (x.inProvision ==> s.provision != [] && s.provision[0] == c && x.depth <= |x.stack|)
    && (c in s.provision <==> x.mode.AwaitingProvision? || x.inProvision)
  }

  ghost predicate ChainOk(s: Sys) {
    && (forall c :: c in s.provision ==> Live(s, c))
    && (forall i, j :: 0 <= i < j < |s.provision| ==> s.provision[i] != s.provision[j])
  }

  ghost predicate SysOk(s: Sys) {
    && |s.owner| == |s.lock.tickets|
    && (forall t :: 0 <= t < |s.owner| ==> TicketOk(s, t))
    && (forall c :: Live(s, c) ==> CtxOk(s, c))
    && ChainOk(s)
  }

  /** What holds whatever the contexts ask for. */
  ghost predicate SysSafe(s: Sys) {
    Inv(s.lock) && SysOk(s)
  }

  /** Whoever waits for keys while it owns something was let through by a try, and waits for nobody. */
  ghost predicate NoneBlocksOwning(s: Sys) {
    forall c :: Live(s, c) && s.ctxs[c].mode.AwaitingKeys? && (s.ctxs[c].stack != [] || s.ctxs[c].inProvision) ==>
      0 <= s.ctxs[c].mode.t < |s.lock.tickets| && s.lock.tickets[s.ctxs[c].mode.t].waits == {}
  }

  ghost predicate SysInv(s: Sys) {
    SysSafe(s) && NoneBlocksOwning(s)
  }

  lemma TriedWaitsForNobody(l: Lock, need: seq<Key>)
    requires Inv(l)
    requires forall k :: k in need ==> Count(l.ops, k) <= 0
    ensures Ahead(l.ops, need) == {}
  {
    assert forall k :: k in need ==> k !in l.ops;
  }

  lemma WaitingKeepsOk(s: Sys, c: CtxId, need: seq<Key>)
    requires SysOk(s) && Works(s, c)
    ensures SysOk(Waiting(s, c, need))
  {
    var n := Waiting(s, c, need);
    assert forall t :: 0 <= t < |s.owner| ==> n.lock.tickets[t] == s.lock.tickets[t] && n.owner[t] == s.owner[t];
    forall t | 0 <= t < |n.owner| ensures TicketOk(n, t) {
      assert t < |s.owner| ==> TicketOk(s, t);
    }
    forall d | Live(n, d) ensures CtxOk(n, d) {
      assert CtxOk(s, d);
    }
  }

  lemma GrantKeepsOk(s: Sys, c: CtxId)
    requires SysOk(s) && CanAct(s, Grant(c))
    ensures SysOk(Act(s, Grant(c)))
  {
    var n := Act(s, Grant(c));
    var g := s.ctxs[c].mode.t;
    assert CtxOk(s, c);
    assert g !in s.ctxs[c].stack;
    forall t | 0 <= t < |n.owner| ensures TicketOk(n, t) {
      assert TicketOk(s, t);
    }
    forall d | Live(n, d) ensures CtxOk(n, d) {
      assert CtxOk(s, d);
      assert StackOk(n, d);
    }
  }

  /** The ticket on top is on its owner's stack only, and once. */
  lemma TopIsApart(s: Sys, c: CtxId)
    requires SysOk(s) && CanAct(s, ReleaseTop(c))
    ensures var x := s.ctxs[c];
            var g := x.stack[|x.stack| - 1];
            && 0 <= g < |s.owner| && s.owner[g] == c && g !in x.stack[..|x.stack| - 1]
            && (forall t :: t in x.stack && t != g ==> t in x.stack[..|x.stack| - 1])
            && forall d, t :: Live(s, d) && d != c && t in s.ctxs[d].stack ==> t != g
  {
    var x := s.ctxs[c];
    var g := x.stack[|x.stack| - 1];
    assert CtxOk(s, c) && StackOk(s, c) && g in x.stack;
    forall d, t | Live(s, d) && d != c && t in s.ctxs[d].stack ensures t != g {
      assert CtxOk(s, d) && StackOk(s, d);
    }
  }

  lemma ReleaseKeepsOk(s: Sys, c: CtxId)
    requires SysOk(s) && CanAct(s, ReleaseTop(c))
    ensures SysOk(Act(s, ReleaseTop(c)))
  {
    var n := Act(s, ReleaseTop(c));
    TopIsApart(s, c);
    assert CtxOk(s, c);
    forall t | 0 <= t < |n.owner| ensures TicketOk(n, t) {
      assert TicketOk(s, t);
    }
    forall d | Live(n, d) ensures CtxOk(n, d) {
      ReleaseKeepsCtx(s, c, d);
    }
  }

  lemma ReleaseKeepsCtx(s: Sys, c: CtxId, d: CtxId)
    requires SysOk(s) && CanAct(s, ReleaseTop(c)) && Live(s, d)
    ensures var n := Act(s, ReleaseTop(c)); Live(n, d) && CtxOk(n, d)
  {
    var n := Act(s, ReleaseTop(c));
    TopIsApart(s, c);
    assert CtxOk(s, c) && CtxOk(s, d);
    forall t | t in n.ctxs[d].stack ensures t in s.ctxs[d].stack && n.lock.tickets[t] == s.lock.tickets[t] {
    }
    assert StackOk(n, d);
  }

  lemma EnterKeepsOk(s: Sys, c: CtxId)
    requires SysOk(s) && CanAct(s, EnterProvision(c)) && Disciplined(s, EnterProvision(c))
    ensures SysOk(Act(s, EnterProvision(c)))
  {
    var n := Act(s, EnterProvision(c));
    assert CtxOk(s, c);
    forall t | 0 <= t < |n.owner| ensures TicketOk(n, t) {
      assert TicketOk(s, t);
    }
    forall d | Live(n, d) ensures CtxOk(n, d) {
      assert CtxOk(s, d) && (d in n.provision <==> d == c || d in s.provision);
    }
  }

  lemma GrantProvisionKeepsOk(s: Sys, c: CtxId)
    requires SysOk(s) && CanAct(s, GrantProvision(c))
    ensures SysOk(Act(s, GrantProvision(c)))
  {
    var n := Act(s, GrantProvision(c));
    assert CtxOk(s, c);
    forall t | 0 <= t < |n.owner| ensures TicketOk(n, t) {
      assert TicketOk(s, t);
    }
    forall d | Live(n, d) ensures CtxOk(n, d) {
      assert CtxOk(s, d);
    }
  }

  lemma LeaveKeepsOk(s: Sys, c: CtxId)
    requires SysOk(s) && CanAct(s, LeaveProvision(c))
    ensures SysOk(Act(s, LeaveProvision(c)))
  {
    var n := Act(s, LeaveProvision(c));
    assert CtxOk(s, c) && s.provision == [s.provision[0]] + s.provision[1..];
    assert forall d :: d in n.provision ==> d in s.provision;
    forall t | 0 <= t < |n.owner| ensures TicketOk(n, t) {
      assert TicketOk(s, t);
    }
    forall d | Live(n, d) ensures CtxOk(n, d) {
      assert CtxOk(s, d) && (d in n.provision <==> d != c && d in s.provision);
    }
  }

  lemma ArrivalsKeepOk(s: Sys, a: Action)
    requires SysOk(s) && CanAct(s, a) && (a.Arrive? || a.Quit?)
    ensures SysOk(Act(s, a))
  {
    var n := Act(s, a);
    assert |s.ctxs| !in s.provision;
    forall t | 0 <= t < |n.owner| ensures TicketOk(n, t) {
      assert TicketOk(s, t);
    }
    forall d | Live(n, d) ensures CtxOk(n, d) {
      if Live(s, d) {
        assert CtxOk(s, d);
      }
    }
  }

  /** Blocking while owning something harms no owner and no chain. */
  lemma StepKeepsSafe(s: Sys, a: Action)
    requires SysSafe(s) && CanAct(s, a) && (a.Acquire? || Disciplined(s, a))
    ensures SysSafe(Act(s, a))
  {
    match a
    case Acquire(c, keys) =>
      var need := Need(keys, Held(s, c));
      if need != [] {
        EnqueueKeepsInv(s.lock, need);
        WaitingKeepsOk(s, c, need);
      }
    case Try(c, keys) =>
      var need := Need(keys, Held(s, c));
      if need != [] && !Busy(s, need) {
        EnqueueKeepsInv(s.lock, need);
        WaitingKeepsOk(s, c, need);
      }
    case Grant(c) =>
      StartKeepsInv(s.lock, s.ctxs[c].mode.t);
      GrantKeepsOk(s, c);
    case ReleaseTop(c) =>
      FinishKeepsInv(s.lock, s.ctxs[c].stack[|s.ctxs[c].stack| - 1]);
      ReleaseKeepsOk(s, c);
    case Arrive => ArrivalsKeepOk(s, a);
    case Quit(c) => ArrivalsKeepOk(s, a);
    case EnterProvision(c) => EnterKeepsOk(s, c);
    case GrantProvision(c) => GrantProvisionKeepsOk(s, c);
    case LeaveProvision(c) => LeaveKeepsOk(s, c);
  }

  lemma WaitingBlocksNone(s: Sys, c: CtxId, need: seq<Key>)
    requires SysInv(s) && Works(s, c)
    requires (s.ctxs[c].stack == [] && !s.ctxs[c].inProvision) || Ahead(s.lock.ops, need) == {}
    ensures NoneBlocksOwning(Waiting(s, c, need))
  {
    var n := Waiting(s, c, need);
    assert forall t :: 0 <= t < |s.lock.tickets| ==> n.lock.tickets[t] == s.lock.tickets[t];
  }

  lemma StepBlocksNone(s: Sys, a: Action)
    requires SysInv(s) && CanAct(s, a) && Disciplined(s, a)
    ensures NoneBlocksOwning(Act(s, a))
  {
    match a
    case Acquire(c, keys) =>
      if Need(keys, Held(s, c)) != [] {
        WaitingBlocksNone(s, c, Need(keys, Held(s, c)));
      }
    case Try(c, keys) => TryBlocksNone(s, c, keys);
    case _ => WithoutTicketBlocksNone(s, a);
  }

  lemma TryBlocksNone(s: Sys, c: CtxId, keys: seq<Key>)
    requires SysInv(s) && CanAct(s, Try(c, keys))
    ensures NoneBlocksOwning(Act(s, Try(c, keys)))
  {
    var need := Need(keys, Held(s, c));
    if need != [] && !Busy(s, need) {
      TriedWaitsForNobody(s.lock, need);
      WaitingBlocksNone(s, c, need);
    }
  }

  /** What takes no ticket has nobody wait for more. */
  lemma WithoutTicketBlocksNone(s: Sys, a: Action)
    requires SysInv(s) && CanAct(s, a) && !a.Acquire? && !a.Try?
    ensures NoneBlocksOwning(Act(s, a))
  {
    var n := Act(s, a);
    assert |n.lock.tickets| == |s.lock.tickets|;
    assert forall t :: 0 <= t < |s.lock.tickets| ==> n.lock.tickets[t].waits == s.lock.tickets[t].waits;
  }

  lemma StepKeepsInv(s: Sys, a: Action)
    requires SysInv(s) && CanAct(s, a) && Disciplined(s, a)
    ensures SysInv(Act(s, a))
  {
    StepKeepsSafe(s, a);
    StepBlocksNone(s, a);
  }

  lemma {:induction false} ReachableSysInv(run: seq<Action>)
    requires Legal(run, true)
    ensures SysInv(After(run, true))
    decreases |run|
  {
    if run != [] {
      var before := run[..|run| - 1];
      ReachableSysInv(before);
      var s, a := After(before, true), run[|run| - 1];
      assert SysInv(s) && CanAct(s, a) && Disciplined(s, a);
      StepKeepsInv(s, a);
    }
  }

  lemma OneTicketPerKey(s: Sys, t: TicketId, u: TicketId, c: CtxId, d: CtxId, k: Key)
    requires SysSafe(s) && Live(s, c) && Live(s, d) && c != d
    requires 0 <= t < |s.lock.tickets| && t in s.ctxs[c].stack && k in s.lock.tickets[t].keys
    requires 0 <= u < |s.lock.tickets| && u in s.ctxs[d].stack
    ensures k !in s.lock.tickets[u].keys
  {
    assert CtxOk(s, c) && CtxOk(s, d) && TicketOk(s, t) && TicketOk(s, u);
    if k in s.lock.tickets[u].keys {
      assert Names(s.lock, t, k) && Names(s.lock, u, k) && Unreleased(s.lock, t) && Unreleased(s.lock, u);
    }
  }

  /** At most one context owns a key at a time, whatever is nested inside it. */
  lemma OneOwnerPerKey(run: seq<Action>, c: CtxId, d: CtxId)
    requires Legal(run, true)
    requires Live(After(run, true), c) && Live(After(run, true), d) && c != d
    ensures Held(After(run, true), c) !! Held(After(run, true), d)
  {
    var s := After(run, true);
    ReachableSysInv(run);
    forall k | k in Held(s, c) ensures k !in Held(s, d) {
      var t :| t in s.ctxs[c].stack && 0 <= t < |s.lock.tickets| && k in s.lock.tickets[t].keys;
      forall u | u in s.ctxs[d].stack && 0 <= u < |s.lock.tickets| ensures k !in s.lock.tickets[u].keys {
        OneTicketPerKey(s, t, u, c, d, k);
      }
    }
  }

  // ---- deadlock freedom ------------------------------------------------------------------------

  /** An action that moves some context towards its end. */
  predicate Progress(a: Action) {
    a.Grant? || a.GrantProvision? || a.ReleaseTop? || a.LeaveProvision? || a.Quit?
  }

  ghost predicate CanProgress(s: Sys) {
    exists a :: Progress(a) && CanAct(s, a)
  }

  lemma WorkingProgresses(s: Sys, c: CtxId)
    requires SysOk(s) && Works(s, c)
    ensures CanProgress(s)
  {
    var x := s.ctxs[c];
    assert CtxOk(s, c);
    if x.inProvision && |x.stack| <= x.depth {
      assert CanAct(s, LeaveProvision(c));
    } else if x.stack != [] {
      assert x.stack[|x.stack| - 1] in x.stack;
      assert CanAct(s, ReleaseTop(c));
    } else {
      assert CanAct(s, Quit(c));
    }
  }

  lemma TriedProgresses(s: Sys, c: CtxId)
    requires SysInv(s) && Live(s, c) && s.ctxs[c].mode.AwaitingKeys?
    requires s.ctxs[c].stack != [] || s.ctxs[c].inProvision
    ensures CanProgress(s)
  {
    assert CtxOk(s, c);
    assert CanAct(s, Grant(c));
  }

  lemma ChainHeadProgresses(s: Sys)
    requires SysInv(s) && s.provision != []
    ensures CanProgress(s)
  {
    var h := s.provision[0];
    assert h in s.provision && CtxOk(s, h);
    if s.ctxs[h].mode.AwaitingProvision? {
      assert CanAct(s, GrantProvision(h));
    } else if s.ctxs[h].mode.Working? {
      WorkingProgresses(s, h);
    } else {
      TriedProgresses(s, h);
    }
  }

  /** Nobody owns anything and nobody works: then the oldest queued ticket is due. */
  lemma {:induction false} OldestTicketProgresses(s: Sys, c: CtxId)
    requires SysOk(s) && NoOvertaking(s.lock) && Live(s, c) && s.ctxs[c].mode.AwaitingKeys?
    requires forall d :: Live(s, d) ==> s.ctxs[d].stack == []
    ensures CanProgress(s)
    decreases if s.ctxs[c].mode.AwaitingKeys? then s.ctxs[c].mode.t else 0
  {
    assert CtxOk(s, c);
    var t := s.ctxs[c].mode.t;
    if CanStart(s.lock, t) {
      assert CanAct(s, Grant(c));
    } else {
      var u :| u in s.lock.tickets[t].waits && Unreleased(s.lock, u);
      assert TicketOk(s, u);
      OldestTicketProgresses(s, s.owner[u]);
    }
  }

  /** Every disciplined run can go on: as long as some context has not ended, one of them can take a
      step that brings it nearer to its end. */
  lemma NeverStuck(run: seq<Action>, c: CtxId)
    requires Legal(run, true)
    requires Live(After(run, true), c) && !After(run, true).ctxs[c].mode.Ended?
    ensures CanProgress(After(run, true))
  {
    var s := After(run, true);
    ReachableSysInv(run);
    if d :| Works(s, d) {
      WorkingProgresses(s, d);
    } else if s.provision != [] {
      ChainHeadProgresses(s);
    } else {
      assert forall d :: Live(s, d) ==> CtxOk(s, d) && !Works(s, d) && d !in s.provision;
      if d :| Live(s, d) && s.ctxs[d].stack != [] {
        TriedProgresses(s, d);
      } else {
        OldestTicketProgresses(s, c);
      }
    }
  }

  lemma OneMore(run: seq<Action>, a: Action)
    requires Legal(run, false) && CanAct(After(run, false), a)
    ensures Legal(run + [a], false) && After(run + [a], false) == Act(After(run, false), a)
  {
    assert (run + [a])[..|run|] == run;
  }

  lemma SingleNeed(k: Key, inherited: set<Key>)
    requires k !in inherited
    ensures Need([k], inherited) == [k]
  {
    assert [k][..0] == [];
  }

  const Fresh := Ctx([], Working, false, 0)

  function Chained(ops: map<Key, OpEntry>, key: Key): (u: set<TicketId>)
    ensures key !in ops ==> u == {}
  {
    set u | u in Chain(ops, key)
  }

  /** Context `c`, which owns nothing of `key`, queues for it and finds the key's chain as it is. */
  lemma Queues(s: Sys, c: CtxId, key: Key)
    requires Works(s, c) && key !in Held(s, c)
    ensures CanAct(s, Action.Acquire(c, [key]))
    ensures var n := Act(s, Action.Acquire(c, [key]));
            && n.ctxs == s.ctxs[c := s.ctxs[c].(mode := AwaitingKeys(|s.lock.tickets|))]
            && n.owner == s.owner + [c] && n.provision == s.provision
            && n.lock.tickets == s.lock.tickets + [Ticket([key], Chained(s.lock.ops, key), Queued)]
            && n.lock.ops == s.lock.ops[key := OpEntry(Chain(s.lock.ops, key) + [|s.lock.tickets|], Count(s.lock.ops, key) + 1)]
  {
    SingleNeed(key, Held(s, c));
    AheadSnoc(s.lock.ops, [], key);
    assert [] + [key] == [key] && Ahead(s.lock.ops, []) == {};
    assert Ahead(s.lock.ops, [key]) == Chained(s.lock.ops, key);
    assert Extended(s.lock.ops, [key], |s.lock.tickets|)
        == s.lock.ops[key := OpEntry(Chain(s.lock.ops, key) + [|s.lock.tickets|], Count(s.lock.ops, key) + 1)];
  }

  ghost predicate Reachable(s: Sys) {
    exists run :: Legal(run, false) && After(run, false) == s
  }

  lemma Reach(s: Sys, a: Action)
    requires Reachable(s) && CanAct(s, a)
    ensures Reachable(Act(s, a))
  {
    var run :| Legal(run, false) && After(run, false) == s;
    OneMore(run, a);
  }

  /** Context `c` once it has taken a key nobody holds. */
  function Owning(s: Sys, c: CtxId, key: Key): Sys
    requires Live(s, c)
  {
    var t := |s.lock.tickets|;
    s.(lock := Lock(s.lock.tickets + [Ticket([key], {}, Running)], s.lock.ops[key := OpEntry([t], 1)]),
       owner := s.owner + [c], ctxs := s.ctxs[c := s.ctxs[c].(stack := s.ctxs[c].stack + [t])])
  }

  /** Context `c` while it waits for a key nobody holds. */
  function Asking(s: Sys, c: CtxId, key: Key): Sys
    requires Live(s, c)
  {
    var t := |s.lock.tickets|;
    s.(lock := Lock(s.lock.tickets + [Ticket([key], {}, Queued)], s.lock.ops[key := OpEntry([t], 1)]),
       owner := s.owner + [c], ctxs := s.ctxs[c := s.ctxs[c].(mode := AwaitingKeys(t))])
  }

  lemma AsksFreeKey(s: Sys, c: CtxId, key: Key)
    requires Works(s, c) && key !in Held(s, c) && key !in s.lock.ops
    ensures CanAct(s, Action.Acquire(c, [key])) && Act(s, Action.Acquire(c, [key])) == Asking(s, c, key)
  {
    Queues(s, c, key);
    assert Chain(s.lock.ops, key) + [|s.lock.tickets|] == [|s.lock.tickets|];
    assert Chained(s.lock.ops, key) == {};
  }

  lemma GetsFreeKey(s: Sys, c: CtxId, key: Key)
    requires Works(s, c)
    ensures CanAct(Asking(s, c, key), Grant(c)) && Act(Asking(s, c, key), Grant(c)) == Owning(s, c, key)
  {
    var q, t := Asking(s, c, key), |s.lock.tickets|;
    assert q.lock.tickets[t] == Ticket([key], {}, Queued);
    assert q.lock.tickets[t := Ticket([key], {}, Running)] == Owning(s, c, key).lock.tickets;
    assert q.ctxs[c := q.ctxs[c].(mode := Working, stack := q.ctxs[c].stack + [t])] == Owning(s, c, key).ctxs;
  }

  lemma TakesFreeKey(s: Sys, c: CtxId, key: Key)
    requires Reachable(s) && Works(s, c) && key !in Held(s, c) && key !in s.lock.ops
    ensures Reachable(Owning(s, c, key))
  {
    AsksFreeKey(s, c, key);
    Reach(s, Action.Acquire(c, [key]));
    GetsFreeKey(s, c, key);
    Reach(Asking(s, c, key), Grant(c));
  }

  lemma ReachTwoArrived()
    ensures Reachable(Sys(Lock([], map[]), [], [Fresh, Fresh], []))
  {
    var none: seq<Action> := [];
    assert Legal(none, false) && After(none, false) == Empty;
    Reach(Empty, Arrive);
    Reach(Act(Empty, Arrive), Arrive);
    assert Act(Act(Empty, Arrive), Arrive).ctxs == [Fresh, Fresh];
  }

  function TwoOwned(a: Key, b: Key): Sys {
    Owning(Owning(Sys(Lock([], map[]), [], [Fresh, Fresh], []), 0, a), 1, b)
  }

  lemma ReachTwoOwned(a: Key, b: Key)
    requires a != b
    ensures Reachable(TwoOwned(a, b))
  {
    ReachTwoArrived();
    var s := Sys(Lock([], map[]), [], [Fresh, Fresh], []);
    TakesFreeKey(s, 0, a);
    var one := Owning(s, 0, a);
    assert one.ctxs[1] == Fresh;
    TakesFreeKey(one, 1, b);
  }

  /** Two contexts at work, each with one key of its own and nothing else about. */
  predicate OwnOne(s: Sys, a: Key, b: Key) {
    && s.lock.tickets[..] == [Ticket([a], {}, Running), Ticket([b], {}, Running)]
    && s.ctxs == [Fresh.(stack := [0]), Fresh.(stack := [1])] && s.provision == []
    && Chain(s.lock.ops, a) == [0] && Chain(s.lock.ops, b) == [1]
  }

  lemma TwoOwnedOwnOne(a: Key, b: Key)
    requires a != b
    ensures OwnOne(TwoOwned(a, b), a, b)
  {
    var s := TwoOwned(a, b);
    var none: seq<TicketId> := [];
    assert none + [0] == [0] && none + [1] == [1] && Fresh.stack == none;
    assert s.lock.tickets == [Ticket([a], {}, Running), Ticket([b], {}, Running)];
    assert s.ctxs == [Fresh.(stack := [0]), Fresh.(stack := [1])];
  }

  lemma CrossedWaitsAreStuck(s: Sys)
    requires |s.lock.tickets| == 4 && |s.ctxs| == 2 && s.provision == []
    requires s.ctxs[0].mode == AwaitingKeys(2) && 1 in s.lock.tickets[2].waits && Unreleased(s.lock, 1)
    requires s.ctxs[1].mode == AwaitingKeys(3) && 0 in s.lock.tickets[3].waits && Unreleased(s.lock, 0)
    ensures !CanProgress(s)
  {
  }

  lemma HoldsItsOwn(s: Sys, c: CtxId, own: Key)
    requires Live(s, c) && s.ctxs[c].stack == [c] && c < |s.lock.tickets| && s.lock.tickets[c].keys == [own]
    ensures Held(s, c) == {own}
  {
    assert own in s.lock.tickets[c].keys && c in s.ctxs[c].stack;
  }

  /** The discipline is what it takes: two contexts that each own a key and then block on the other's
      are stuck for good. */
  lemma NestedAcquisitionCanDeadlock(a: Key, b: Key)
    requires a != b
    ensures exists s :: Reachable(s) && !CanProgress(s) && exists c :: Live(s, c) && !s.ctxs[c].mode.Ended?
  {
    ReachTwoOwned(a, b);
    TwoOwnedOwnOne(a, b);
    FirstCrosses(TwoOwned(a, b), a, b);
    CrossingIsStuck(Act(TwoOwned(a, b), Action.Acquire(0, [b])), a, b);
  }

  /** One of the two waits for the other's key. */
  predicate HalfCrossed(s: Sys, a: Key, b: Key) {
    && |s.lock.tickets| == 3 && |s.ctxs| == 2 && s.provision == []
    && s.lock.tickets[0].phase.Running? && s.lock.tickets[1] == Ticket([b], {}, Running) && 1 in s.lock.tickets[2].waits
    && s.ctxs[0].mode == AwaitingKeys(2) && s.ctxs[1] == Fresh.(stack := [1])
    && 0 in Chain(s.lock.ops, a)
  }

  lemma FirstCrosses(s: Sys, a: Key, b: Key)
    requires a != b && Reachable(s) && OwnOne(s, a, b)
    ensures CanAct(s, Action.Acquire(0, [b]))
    ensures var n := Act(s, Action.Acquire(0, [b])); Reachable(n) && HalfCrossed(n, a, b)
  {
    HoldsItsOwn(s, 0, a);
    Queues(s, 0, b);
    Reach(s, Action.Acquire(0, [b]));
    var n := Act(s, Action.Acquire(0, [b]));
    assert n.lock.tickets == s.lock.tickets + [Ticket([b], Chained(s.lock.ops, b), Queued)];
    assert Chain(s.lock.ops, b)[0] == 1 && Chain(n.lock.ops, a) == Chain(s.lock.ops, a);
    assert Chain(n.lock.ops, a)[0] == 0;
  }

  lemma CrossingIsStuck(s: Sys, a: Key, b: Key)
    requires a != b && Reachable(s) && HalfCrossed(s, a, b)
    ensures exists t :: Reachable(t) && !CanProgress(t) && exists c :: Live(t, c) && !t.ctxs[c].mode.Ended?
  {
    HoldsItsOwn(s, 1, b);
    Queues(s, 1, a);
    Reach(s, Action.Acquire(1, [a]));
    var n := Act(s, Action.Acquire(1, [a]));
    assert n.lock.tickets == s.lock.tickets + [Ticket([a], Chained(s.lock.ops, a), Queued)];
    CrossedWaitsAreStuck(n);
    assert Live(n, 0);
  }
}

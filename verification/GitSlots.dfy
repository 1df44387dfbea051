/** The daemon-wide build semaphore of src/server.ts: two slots, a list of waiters, and a wake-up that
    takes its slot only when the woken build gets to run. */
module GitSlots {

  const GIT_BUILD_CONCURRENCY := 2

  type BuildId = int

  /** `building` are the holders that started their build; one that gets its slot after the daemon has begun
      to close throws instead, and only gives it back. */
  datatype Slots = Slots(free: int, waiters: seq<BuildId>, woken: set<BuildId>, holders: set<BuildId>, building: set<BuildId>, closed: bool)

  // ---- what the operations do ------------------------------------------------------------------

  predicate Known(s: Slots, b: BuildId) {
    b in s.waiters || b in s.woken || b in s.holders
  }

  function Asked(s: Slots, b: BuildId): Slots {
    if s.free <= 0 then s.(waiters := s.waiters + [b])
    else Taken(s, b)
  }

  /** The slot is taken, and the build starts unless the daemon is closing. */
  function Taken(s: Slots, b: BuildId): Slots {
    s.(free := s.free - 1, holders := s.holders + {b}, building := if s.closed then s.building else s.building + {b})
  }

  function Resumed(s: Slots, b: BuildId): Slots {
    Taken(s.(woken := s.woken - {b}), b)
  }

  /** The first waiter, if any, is let go on; it has not taken its slot yet. */
  function WakeOne(s: Slots): Slots {
    if s.waiters == [] then s else s.(waiters := s.waiters[1..], woken := s.woken + {s.waiters[0]})
  }

  function Returned(s: Slots, b: BuildId): Slots {
    if b !in s.holders then s else WakeOne(s.(free := s.free + 1, holders := s.holders - {b}, building := s.building - {b}))
  }

  function Closing(s: Slots): Slots {
    s.(closed := true, waiters := [], woken := s.woken + set b | b in s.waiters)
  }

  // ---- the program -----------------------------------------------------------------------------

  class BuildSlots {
    var gitBuildSlots: int
    var gitBuildWaiters: seq<BuildId>
    /** Resolved, but not run since. */
    var woken: set<BuildId>
    /** Past the decrement and not released. */
    var holders: set<BuildId>
    /** `activeGitBuilds`, with the builds still to reach docker. */
    var building: set<BuildId>
    var gitShuttingDown: bool

    ghost function State(): Slots
      reads this
    {
      Slots(gitBuildSlots, gitBuildWaiters, woken, holders, building, gitShuttingDown)
    }

    constructor ()
      ensures State() == Idle()
    {
      gitBuildSlots, gitBuildWaiters, woken, holders := GIT_BUILD_CONCURRENCY, [], {}, {};
      building, gitShuttingDown := {}, false;
    }

    /** What `runBuild` does once it has its slot. */
    method Start(b: BuildId)
      modifies this`building
      ensures building == if gitShuttingDown then old(building) else old(building) + {b}
    {
      if !gitShuttingDown {
        building := building + {b};
      }
    }

    /** `acquireBuildSlot` up to its wait, or to its end when it need not wait. */
    method Acquire(b: BuildId)
      requires !Known(State(), b)
      modifies this
      ensures State() == Asked(old(State()), b)
    {
      if gitBuildSlots <= 0 {
        gitBuildWaiters := gitBuildWaiters + [b];
        return;
      }
      gitBuildSlots := gitBuildSlots - 1;
      holders := holders + {b};
      Start(b);
    }

    /** `acquireBuildSlot` after its wait: it decrements without looking again. */
    method Resume(b: BuildId)
      requires b in woken
      modifies this
      ensures State() == Resumed(old(State()), b)
    {
      woken := woken - {b};
      gitBuildSlots := gitBuildSlots - 1;
      holders := holders + {b};
      Start(b);
    }

    /** The release a build was handed; calling it again does nothing. */
    method Release(b: BuildId)
      modifies this
      ensures State() == Returned(old(State()), b)
    {
      if b !in holders {
        return;
      }
      holders, building := holders - {b}, building - {b};
      gitBuildSlots := gitBuildSlots + 1;
      if gitBuildWaiters != [] {
        woken := woken + {gitBuildWaiters[0]};
        gitBuildWaiters := gitBuildWaiters[1..];
      }
    }

    /** The close hook: the flag first, then the loop over the waiters. */
    method WakeAll()
      modifies this
      ensures State() == Closing(old(State()))
    {
      gitShuttingDown := true;
      while gitBuildWaiters != []
        invariant gitBuildSlots == old(gitBuildSlots) && holders == old(holders) && building == old(building) && gitShuttingDown
        invariant woken + (set b | b in gitBuildWaiters) == old(woken) + set b | b in old(gitBuildWaiters)
        decreases |gitBuildWaiters|
      {
        var b := gitBuildWaiters[0];
        assert gitBuildWaiters == [b] + gitBuildWaiters[1..];
        woken := woken + {b};
        gitBuildWaiters := gitBuildWaiters[1..];
      }
    }
  }

  // ---- whole runs ------------------------------------------------------------------------------

  datatype Event = Ask(b: BuildId) | Go(b: BuildId) | Return(b: BuildId) | Close

  predicate CanHappen(s: Slots, e: Event) {
    match e
    case Ask(b) => !Known(s, b)
    case Go(b) => b in s.woken
    case Return(_) => true
    case Close => true
  }

  function Stepped(s: Slots, e: Event): Slots {
    match e
    case Ask(b) => Asked(s, b)
    case Go(b) => Resumed(s, b)
    case Return(b) => Returned(s, b)
    case Close => Closing(s)
  }

  function Idle(): Slots {
    Slots(GIT_BUILD_CONCURRENCY, [], {}, {}, {}, false)
  }

  ghost predicate IsRun(run: seq<Event>, at: seq<Slots>) {
    && |at| == |run| + 1 && at[0] == Idle()
    && forall i :: 0 <= i < |run| ==> CanHappen(at[i], run[i]) && at[i + 1] == Stepped(at[i], run[i])
  }

  predicate Once(bs: seq<BuildId>) {
    forall i, j :: 0 <= i < j < |bs| ==> bs[i] != bs[j]
  }

  /** Free slots and live holders add up, and until the daemon closes every holder builds; nobody is in two
      places; and while anybody waits, somebody holds a slot or is about to. */
  predicate Inv(s: Slots) {
    && s.free + |s.holders| == GIT_BUILD_CONCURRENCY
    && Once(s.waiters) && s.woken !! s.holders
    && (forall b :: b in s.waiters ==> b !in s.woken && b !in s.holders)
    && (s.waiters != [] ==> s.holders + s.woken != {})
    && s.building <= s.holders && (!s.closed ==> s.building == s.holders)
  }

  lemma AskKeepsInv(s: Slots, b: BuildId)
    requires Inv(s) && !Known(s, b)
    ensures Inv(Asked(s, b))
  {
  }

  lemma GoKeepsInv(s: Slots, b: BuildId)
    requires Inv(s) && b in s.woken
    ensures Inv(Resumed(s, b))
  {
  }

  lemma ReturnKeepsInv(s: Slots, b: BuildId)
    requires Inv(s)
    ensures Inv(Returned(s, b))
  {
    if b in s.holders && s.waiters != [] {
      var first, rest := s.waiters[0], s.waiters[1..];
      assert s.waiters == [first] + rest && first in s.waiters;
      assert forall w :: w in rest ==> w in s.waiters && w != first;
      assert first in Returned(s, b).woken;
    }
  }

  lemma StepKeepsInv(s: Slots, e: Event)
    requires Inv(s) && CanHappen(s, e)
    ensures Inv(Stepped(s, e))
  {
    match e
    case Ask(b) => AskKeepsInv(s, b);
    case Go(b) => GoKeepsInv(s, b);
    case Return(b) => ReturnKeepsInv(s, b);
    case Close =>
  }

  /** In every state of every run: slots are conserved, and no waiter is stranded. */
  lemma {:induction false} SlotsAreConserved(run: seq<Event>, at: seq<Slots>, n: nat)
    requires IsRun(run, at) && n <= |run|
    ensures Inv(at[n])
  {
    if n > 0 {
      SlotsAreConserved(run, at, n - 1);
      StepKeepsInv(at[n - 1], run[n - 1]);
    }
  }

  /** A woken build that is to start finds its slot taken. */
  predicate Overtaken(s: Slots, e: Event) {
    e.Go? && s.free <= 0 && !s.closed
  }

  lemma StepBound(s: Slots, e: Event)
    requires Inv(s) && CanHappen(s, e) && |s.building| <= GIT_BUILD_CONCURRENCY
    ensures |Stepped(s, e).building| <= GIT_BUILD_CONCURRENCY <==> !Overtaken(s, e)
  {
    StepKeepsInv(s, e);
    if s.closed {
      NoMoreBuilds(s, e);
    }
  }

  /** Once the daemon closes builds only end. */
  lemma NoMoreBuilds(s: Slots, e: Event)
    requires s.closed
    ensures Stepped(s, e).closed && Stepped(s, e).building <= s.building && |Stepped(s, e).building| <= |s.building|
  {
    var t := Stepped(s, e);
    assert t.building == if e.Return? && e.b in s.holders then s.building - {e.b} else s.building;
  }

  predicate Bounded(s: Slots) {
    |s.building| <= GIT_BUILD_CONCURRENCY
  }

  predicate BreaksWhenOvertaken(s: Slots, e: Event, t: Slots) {
    Bounded(s) ==> (Bounded(t) <==> !Overtaken(s, e))
  }

  lemma {:induction false} BoundedThroughout(run: seq<Event>, at: seq<Slots>, n: nat)
    requires |at| == |run| + 1 && n <= |run| && Bounded(at[0])
    requires forall i :: 0 <= i < n ==> BreaksWhenOvertaken(at[i], run[i], at[i + 1])
    ensures (forall i :: 0 <= i <= n ==> Bounded(at[i])) <==> (forall i :: 0 <= i < n ==> !Overtaken(at[i], run[i]))
  {
    if n > 0 {
      BoundedThroughout(run, at, n - 1);
      assert BreaksWhenOvertaken(at[n - 1], run[n - 1], at[n - 1 + 1]);
      assert (forall i :: 0 <= i <= n ==> Bounded(at[i])) <==> (forall i :: 0 <= i <= n - 1 ==> Bounded(at[i])) && Bounded(at[n]);
    }
  }

  /** No more than two builds run at once, ever, exactly when no woken build that is to start finds its slot
      taken. */
  lemma TwoAtATime(run: seq<Event>, at: seq<Slots>, n: nat)
    requires IsRun(run, at) && n <= |run|
    ensures (forall i :: 0 <= i <= n ==> |at[i].building| <= 2)
            <==> (forall i :: 0 <= i < n ==> !Overtaken(at[i], run[i]))
  {
    forall i | 0 <= i < n ensures BreaksWhenOvertaken(at[i], run[i], at[i + 1]) {
      SlotsAreConserved(run, at, i);
      if Bounded(at[i]) {
        StepBound(at[i], run[i]);
      }
    }
    BoundedThroughout(run, at, n);
    assert forall i :: 0 <= i <= n ==> (Bounded(at[i]) <==> |at[i].building| <= 2);
  }

  /** Some run leads to this state. */
  ghost predicate Reachable(s: Slots) {
    exists run, at :: IsRun(run, at) && at[|run|] == s
  }

  lemma Reach(s: Slots, e: Event)
    requires Reachable(s) && CanHappen(s, e)
    ensures Reachable(Stepped(s, e))
  {
    var run, at :| IsRun(run, at) && at[|run|] == s;
    var run', at' := run + [e], at + [Stepped(s, e)];
    forall i | 0 <= i < |run'| ensures CanHappen(at'[i], run'[i]) && at'[i + 1] == Stepped(at'[i], run'[i]) {
      if i < |run| {
        assert run'[i] == run[i] && at'[i] == at[i] && at'[i + 1] == at[i + 1];
      }
    }
    assert at'[|run'|] == Stepped(s, e);
  }

  /** A state before the daemon closes, in which every holder builds. */
  function Open(free: int, waiters: seq<BuildId>, woken: set<BuildId>, holders: set<BuildId>): Slots {
    Slots(free, waiters, woken, holders, holders, false)
  }

  lemma ReachTwoHolders(a: BuildId, b: BuildId, c: BuildId)
    requires a != b && a != c && b != c
    ensures Reachable(Open(0, [c], {}, {a, b}))
  {
    var run: seq<Event> := [];
    assert IsRun(run, [Idle()]) && [Idle()][|run|] == Idle();
    assert Reachable(Idle());
    Reach(Idle(), Ask(a));
    assert Stepped(Idle(), Ask(a)) == Open(1, [], {}, {a});
    Reach(Open(1, [], {}, {a}), Ask(b));
    assert Stepped(Open(1, [], {}, {a}), Ask(b)) == Open(0, [], {}, {a, b});
    Reach(Open(0, [], {}, {a, b}), Ask(c));
  }

  /** And one can: a build that asks between a wake-up and its decrement makes three. */
  lemma ThreeAtOnce(a: BuildId, b: BuildId, c: BuildId, d: BuildId)
    requires a != b && a != c && b != c && d !in {a, b, c}
    ensures Reachable(Open(-1, [], {}, {b, c, d})) && |{b, c, d}| == 3
  {
    ReachTwoHolders(a, b, c);
    var s3 := Open(0, [c], {}, {a, b});
    Reach(s3, Return(a));
    assert Stepped(s3, Return(a)) == Open(1, [], {c}, {b});
    Reach(Open(1, [], {c}, {b}), Ask(d));
    assert Stepped(Open(1, [], {c}, {b}), Ask(d)) == Open(0, [], {c}, {b, d});
    Reach(Open(0, [], {c}, {b, d}), Go(c));
    assert Stepped(Open(0, [], {c}, {b, d}), Go(c)) == Open(-1, [], {}, {b, c, d});
  }

  /** Nor does it right itself while builds queue: a release hands its slot on even when none is free,
      so the number running stays where it was. */
  lemma OvershootLasts(s: Slots, b: BuildId)
    requires Inv(s) && b in s.holders && s.waiters != []
    ensures var next := Stepped(Stepped(s, Return(b)), Go(s.waiters[0]));
            |next.holders| == |s.holders| && next.free == s.free && (!s.closed ==> |next.building| == |s.building|)
  {
    assert s.waiters[0] in s.waiters;
  }

  // ---- nobody in line is lost ------------------------------------------------------------------

  predicate StaysKnown(s: Slots, e: Event, t: Slots, b: BuildId) {
    Known(s, b) && !(e == Return(b) && b in s.holders) ==> Known(t, b)
  }

  lemma StepKeepsKnown(s: Slots, e: Event, b: BuildId)
    requires CanHappen(s, e)
    ensures StaysKnown(s, e, Stepped(s, e), b)
  {
    var t := Stepped(s, e);
    if b in s.waiters {
      var i :| 0 <= i < |s.waiters| && s.waiters[i] == b;
      assert |t.waiters| == |s.waiters| - 1 && i > 0 ==> t.waiters[i - 1] == b;
      assert |t.waiters| >= |s.waiters| ==> t.waiters[i] == b;
    }
  }

  lemma {:induction false} KnownThroughout(run: seq<Event>, at: seq<Slots>, i: nat, n: nat, b: BuildId)
    requires |at| == |run| + 1 && i <= n <= |run| && Known(at[i], b)
    requires forall j :: i <= j < n ==> StaysKnown(at[j], run[j], at[j + 1], b) && !(run[j] == Return(b) && b in at[j].holders)
    ensures Known(at[n], b)
  {
    if i < n {
      KnownThroughout(run, at, i, n - 1, b);
      assert StaysKnown(at[n - 1], run[n - 1], at[n - 1 + 1], b);
    }
  }

  /** Over every run a build that asked for a slot is in line, or is let go on, or has one, until it gives
      that one back. */
  lemma NobodyIsLost(run: seq<Event>, at: seq<Slots>, i: nat, n: nat, b: BuildId)
    requires IsRun(run, at) && i < n <= |run| && run[i] == Ask(b)
    requires forall j :: i < j < n ==> !(run[j] == Return(b) && b in at[j].holders)
    ensures Known(at[n], b)
  {
    var t := at[i + 1];
    assert CanHappen(at[i], run[i]) && t == Stepped(at[i], run[i]);
    assert b in t.holders || t.waiters[|at[i].waiters|] == b;
    forall j | i + 1 <= j < n ensures StaysKnown(at[j], run[j], at[j + 1], b) {
      StepKeepsKnown(at[j], run[j], b);
    }
    KnownThroughout(run, at, i + 1, n, b);
  }

  /** `a` is in line ahead of `b`. */
  predicate IsAhead(s: Slots, a: BuildId, b: BuildId) {
    exists i, j :: 0 <= i < j < |s.waiters| && s.waiters[i] == a && s.waiters[j] == b
  }

  /** Builds are let go on in the order of the line: one that returns its slot lets the first go, closing lets
      all go, and while a build waits all behind it wait. */
  lemma TheLineIsKept(s: Slots, e: Event, a: BuildId, b: BuildId)
    requires Inv(s) && CanHappen(s, e)
    ensures var t := Stepped(s, e);
            && (IsAhead(s, a, b) && a in t.waiters ==> IsAhead(t, a, b))
            && (e.Return? && e.b in s.holders && s.waiters != [] ==> s.waiters[0] in t.woken)
            && (e.Close? ==> t.waiters == [] && forall w :: w in s.waiters ==> w in t.woken)
  {
    var t := Stepped(s, e);
    if IsAhead(s, a, b) && a in t.waiters {
      var i, j :| 0 <= i < j < |s.waiters| && s.waiters[i] == a && s.waiters[j] == b;
      if |t.waiters| < |s.waiters| {
        assert i > 0 by {
          var k :| 0 <= k < |t.waiters| && t.waiters[k] == a;
          assert s.waiters[k + 1] == a;
        }
        assert t.waiters[i - 1] == a && t.waiters[j - 1] == b;
      } else {
        assert t.waiters[i] == a && t.waiters[j] == b;
      }
    }
  }
}
